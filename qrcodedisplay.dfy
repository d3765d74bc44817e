/**
 * The ticket screen (src/components/QRCodeDisplay.tsx): the text file offered
 * for download, its file name, the text handed to the share sheet, and which
 * routing information the screen shows. `Blob`, object URLs, the link click,
 * `navigator.share` and the toasts around them are left out; the registration
 * time is passed in already formatted, since `toLocaleString('th-TH')` is
 * locale-library behaviour.
 */
module QRCodeDisplay {
  import opened Wrappers
  import opened Text
  import opened GoogleSheets

  const FileNamePrefix: string := "คิว-"
  const FileNameExtension: string := ".txt"
  const ShareNumberLabel: string := "หมายเลขคิว: "
  const ShareIdLabel: string := "เลขบัตรประชาชน: "
  const DepartmentLabel: string := "แผนกปัจจุบัน: "
  const NextDepartmentLabel: string := "แผนกถัดไป: "
  const BodyIndent: string := "      "
  const BodyTitle: string := "ข้อมูลผู้ป่วย - โรงพยาบาล"
  const BodyRule: string := "======================="
  const BodyDateLabel: string := "วันที่ลงทะเบียน: "
  const BodyFooter: string := "กรุณาเก็บข้อมูลนี้ไว้และแสดงพร้อมบัตรประชาชนเมื่อถึงคิวของท่าน"

  /** The last four characters of the ID as `substring(length - 4)` takes them: all of a shorter ID. */
  function IdSuffix(id: string): (r: string)
    ensures |r| == if |id| < 4 then |id| else 4
    ensures id[|id| - |r|..] == r
    ensures |id| < 4 ==> r == id
    ensures |id| >= 4 ==> r == id[|id| - 4..]
  {
    SubstringFrom(id, |id| - 4)
  }

  /**
   * The download's file name, `คิว-<number>-<last four of the ID>.txt`: the prefix and the
   * number, a dash, then the ID's suffix and the extension.
   */
  function DownloadFileName(r: QueueRecord): (name: string)
    ensures var head := FileNamePrefix + IntToString(r.queueNumber);
      var tail := IdSuffix(r.idCardNumber) + FileNameExtension;
      |name| == |head| + 1 + |tail| && name[..|head|] == head && name[|head|] == '-' && name[|head| + 1..] == tail
  {
    var head := FileNamePrefix + IntToString(r.queueNumber);
    var tail := IdSuffix(r.idCardNumber) + FileNameExtension;
    assert (head + "-" + tail)[..|head|] == head;
    assert (head + "-" + tail)[|head| + 1..] == tail;
    head + "-" + tail
  }

  /**
   * The file name starts with `คิว-` and ends with `.txt`; for an ID of four or more characters
   * its last eight characters are the ID's last four and `.txt`, for a valid ID its characters 9 to 12.
   */
  lemma DownloadFileNameShape(r: QueueRecord)
    ensures var name := DownloadFileName(r);
      |name| >= |FileNamePrefix| + |FileNameExtension| &&
      name[..|FileNamePrefix|] == FileNamePrefix &&
      name[|name| - |FileNameExtension|..] == FileNameExtension
    ensures var name := DownloadFileName(r);
      |r.idCardNumber| == 13 ==> |name| >= 8 && name[|name| - 8..] == r.idCardNumber[9..13] + FileNameExtension
  {
    var name := DownloadFileName(r);
    var head := FileNamePrefix + IntToString(r.queueNumber);
    var tail := IdSuffix(r.idCardNumber) + FileNameExtension;
    assert name[..|FileNamePrefix|] == head[..|FileNamePrefix|];
    assert name[|name| - |FileNameExtension|..] == tail[|tail| - |FileNameExtension|..];
    if |r.idCardNumber| == 13 {
      assert name[|name| - 8..] == tail;
    }
  }

  /** A routing line of the file: the labelled value when it is truthy, an empty string otherwise. */
  function RoutingLine(caption: string, value: Option<string>): (line: string)
    ensures line == "" <==> !Truthy(value)
    ensures Truthy(value) ==> line == caption + value.value
  {
    if Truthy(value) then caption + value.value else ""
  }

  /** Lines joined by newlines, as a multi-line template literal writes them. */
  function JoinLines(lines: seq<string>): string
    decreases |lines|
  {
    if |lines| == 0 then "" else if |lines| == 1 then lines[0] else lines[0] + "\n" + JoinLines(lines[1..])
  }

  /** Every line of a joined text occurs in it. */
  lemma {:induction false} JoinLinesContains(lines: seq<string>, i: int)
    requires 0 <= i < |lines|
    ensures Contains(JoinLines(lines), lines[i])
    decreases |lines|
  {
    if |lines| == 1 {
      assert JoinLines(lines)[0..|lines[0]|] == lines[0];
      assert OccursAt(JoinLines(lines), lines[0], 0);
    } else if i == 0 {
      ContainsMiddle("", lines[0], "\n" + JoinLines(lines[1..]));
      assert "" + lines[0] + ("\n" + JoinLines(lines[1..])) == JoinLines(lines);
    } else {
      JoinLinesContains(lines[1..], i - 1);
      ContainsInSuffix(lines[0] + "\n", JoinLines(lines[1..]), lines[i]);
    }
  }

  /** A piece of the second part of a concatenation occurs in the whole. */
  lemma ContainsInSuffix(a: string, b: string, t: string)
    requires Contains(b, t)
    ensures Contains(a + b, t)
  {
    var i :| 0 <= i <= |b| - |t| && OccursAt(b, t, i);
    assert (a + b)[|a| + i..|a| + i + |t|] == b[i..i + |t|];
    assert OccursAt(a + b, t, |a| + i);
  }

  /**
   * The lines of the downloaded text, as the template literal writes them: a leading empty
   * line, each line indented by six spaces, and a trailing line of four spaces.
   */
  function DownloadLines(r: QueueRecord, registeredAt: string): (lines: seq<string>)
    ensures |lines| == 11 && lines[0] == "" && lines[10] == "    "
    ensures forall i :: 1 <= i < 10 ==> |lines[i]| >= |BodyIndent| && lines[i][..|BodyIndent|] == BodyIndent
    ensures lines[2] == lines[8] == BodyIndent + BodyRule
  {
    [ "",
      BodyIndent + BodyTitle,
      BodyIndent + BodyRule,
      BodyIndent + ShareNumberLabel + IntToString(r.queueNumber),
      BodyIndent + ShareIdLabel + r.idCardNumber,
      BodyIndent + BodyDateLabel + registeredAt,
      BodyIndent + RoutingLine(DepartmentLabel, r.department),
      BodyIndent + RoutingLine(NextDepartmentLabel, r.nextDepartment),
      BodyIndent + BodyRule,
      BodyIndent + BodyFooter,
      "    " ]
  }

  /** The downloaded text. */
  function DownloadContent(r: QueueRecord, registeredAt: string): (text: string)
    ensures |text| >= 1 && text[0] == '\n'
  {
    var lines := DownloadLines(r, registeredAt);
    assert JoinLines(lines) == "" + "\n" + JoinLines(lines[1..]);
    JoinLines(lines)
  }

  /**
   * The file states the queue number and the full ID card number on lines of their own,
   * and each routing value that is set, the two independently of each other.
   */
  lemma DownloadContentMentions(r: QueueRecord, registeredAt: string)
    ensures Contains(DownloadContent(r, registeredAt), BodyIndent + ShareNumberLabel + IntToString(r.queueNumber))
    ensures Contains(DownloadContent(r, registeredAt), BodyIndent + ShareIdLabel + r.idCardNumber)
    ensures Truthy(r.department) ==>
      Contains(DownloadContent(r, registeredAt), BodyIndent + DepartmentLabel + r.department.value)
    ensures Truthy(r.nextDepartment) ==>
      Contains(DownloadContent(r, registeredAt), BodyIndent + NextDepartmentLabel + r.nextDepartment.value)
  {
    var lines := DownloadLines(r, registeredAt);
    JoinLinesContains(lines, 3);
    JoinLinesContains(lines, 4);
    JoinLinesContains(lines, 6);
    JoinLinesContains(lines, 7);
    if Truthy(r.department) {
      assert lines[6] == BodyIndent + DepartmentLabel + r.department.value;
    }
    if Truthy(r.nextDepartment) {
      assert lines[7] == BodyIndent + NextDepartmentLabel + r.nextDepartment.value;
    }
  }

  /** The text handed to the share sheet. */
  function ShareText(r: QueueRecord): (t: string)
    ensures |t| == |ShareNumberLabel| + |IntToString(r.queueNumber)| + 1 + |ShareIdLabel| + |r.idCardNumber|
    ensures t[..|ShareNumberLabel|] == ShareNumberLabel
    ensures t[|t| - |r.idCardNumber|..] == r.idCardNumber
  {
    var head := ShareNumberLabel + IntToString(r.queueNumber) + "\n" + ShareIdLabel;
    assert (head + r.idCardNumber)[..|ShareNumberLabel|] == ShareNumberLabel;
    assert (head + r.idCardNumber)[|head|..] == r.idCardNumber;
    head + r.idCardNumber
  }

  /** The index of the first newline in `s`, or `|s|` when there is none. */
  function FirstNewline(s: string): (k: nat)
    ensures k <= |s|
    ensures k < |s| ==> s[k] == '\n'
    ensures forall j :: 0 <= j < k ==> s[j] != '\n'
  {
    if s == [] then 0 else if s[0] == '\n' then 0 else 1 + FirstNewline(s[1..])
  }

  /** Reads the queue number and the ID card number back out of a shared text. */
  function ParseShareText(t: string): Option<(int, string)> {
    if |t| < |ShareNumberLabel| || t[..|ShareNumberLabel|] != ShareNumberLabel then None
    else
      var rest := t[|ShareNumberLabel|..];
      var k := FirstNewline(rest);
      if k == |rest| then None
      else
        var number := ParseInt(rest[..k]);
        var tail := rest[k + 1..];
        if number.None? || |tail| < |ShareIdLabel| || tail[..|ShareIdLabel|] != ShareIdLabel then None
        else Some((number.value, tail[|ShareIdLabel|..]))
  }

  /** The shared text loses nothing: the number and the full ID card number can be read back from it. */
  lemma ShareTextRoundTrip(r: QueueRecord)
    ensures ParseShareText(ShareText(r)) == Some((r.queueNumber, r.idCardNumber))
  {
    var q := IntToString(r.queueNumber);
    var t := ShareText(r);
    var rest := t[|ShareNumberLabel|..];
    assert t[..|ShareNumberLabel|] == ShareNumberLabel;
    assert rest == q + "\n" + ShareIdLabel + r.idCardNumber;
    assert rest[|q|] == '\n';
    assert forall j :: 0 <= j < |q| ==> rest[j] == q[j];
    assert FirstNewline(rest) == |q|;
    assert rest[..|q|] == q;
    IntToStringRoundTrip(r.queueNumber);
    var tail := rest[|q| + 1..];
    assert tail == ShareIdLabel + r.idCardNumber;
    assert tail[..|ShareIdLabel|] == ShareIdLabel;
    assert tail[|ShareIdLabel|..] == r.idCardNumber;
  }

  /** What the routing box of the screen shows. */
  datatype Panel = NotSpecified | CurrentOnly(department: string) | CurrentAndNext(department: string, next: string)

  /**
   * The routing box: the next department appears only inside the branch of a set current
   * department; with none, the "not yet specified" placeholder is shown.
   */
  function DepartmentPanel(r: QueueRecord): (p: Panel)
    ensures p.NotSpecified? <==> !Truthy(r.department)
    ensures p.CurrentAndNext? <==> Truthy(r.department) && Truthy(r.nextDepartment)
    ensures !p.NotSpecified? ==> p.department == r.department.value
    ensures p.CurrentAndNext? ==> p.next == r.nextDepartment.value
  {
    if !Truthy(r.department) then NotSpecified
    else if Truthy(r.nextDepartment) then CurrentAndNext(r.department.value, r.nextDepartment.value)
    else CurrentOnly(r.department.value)
  }
}
