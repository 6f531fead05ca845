/** The template front-matter parser (internal/template/loader.go parseFile), on the file's
    content. */
module FrontMatter {
  import opened Collections
  import opened Strings

  datatype TemplateFile = TemplateFile(name: string, channel: string, subject: Option<string>, body: string)

  const FENCE := "---\n"

  predicate IsChannel(c: string) {
    c == "email" || c == "push" || c == "sms" || c == "inapp"
  }

  // ------------------------------------------------------------------ the parser

  /** The key and value of a header line; blank lines and lines without a colon have none. */
  function LineField(line: string): Option<(string, string)> {
    var l := TrimSpace(line);
    var colon := IndexOf(l, ':');
    if l == "" || colon.None? then None
    else Some((TrimSpace(l[..colon.value]), TrimSpace(l[colon.value + 1..])))
  }

  /** What a header says about a key: the value on the last line that has the key. */
  function Field(lines: seq<string>, key: string): Option<string> {
    if lines == [] then None
    else
      var last := LineField(lines[|lines| - 1]);
      if last.Some? && last.value.0 == key then Some(last.value.1) else Field(lines[..|lines| - 1], key)
  }

  function FieldOr(lines: seq<string>, key: string, default: string): string {
    var f := Field(lines, key);
    if f.Some? then f.value else default
  }

  /** The template a header and a trimmed body describe. */
  function Assemble(lines: seq<string>, body: string): Result<TemplateFile> {
    var name, channel := FieldOr(lines, "name", ""), FieldOr(lines, "channel", "");
    if body == "" then Err("template body is empty")
    else if name == "" then Err("template name is required in front-matter")
    else if !IsChannel(channel) then Err("invalid channel in front-matter")
    else Ok(TemplateFile(name, channel, Field(lines, "subject"), body))
  }

  /** The meaning of a file: fence, header up to the next fence, body. */
  function Meaning(content: string): Result<TemplateFile> {
    if !(FENCE <= content) then Err("template must start with ---")
    else
      var idx := Index(content[4..], FENCE);
      if idx.None? then Err("missing closing --- in front-matter")
      else Assemble(Split(content[4..4 + idx.value], '\n'), TrimSpace(content[4 + idx.value + 4..]))
  }

  // ------------------------------------------------ what that comes to, text by text

  /** A line has a field exactly if it has a colon: what is before the first one is the key, what
      is after it the value, both trimmed. */
  lemma LineIs(line: string) returns (a: string, b: string)
    ensures LineField(line).None? <==> ':' !in TrimSpace(line)
    ensures LineField(line).Some? ==>
              TrimSpace(line) == a + ":" + b && ':' !in a && LineField(line) == Some((TrimSpace(a), TrimSpace(b)))
  {
    var l := TrimSpace(line);
    var colon := IndexOf(l, ':');
    a, b := "", "";
    if colon.Some? {
      a, b := l[..colon.value], l[colon.value + 1..];
      assert l == a + ":" + b;
    }
  }

  /** The value in the last of these fields that has the key. */
  function LastOf(fields: seq<Option<(string, string)>>, key: string): Option<string> {
    if fields == [] then None
    else
      var last := fields[|fields| - 1];
      if last.Some? && last.value.0 == key then Some(last.value.1) else LastOf(fields[..|fields| - 1], key)
  }

  lemma {:induction false} LastOfIs(fields: seq<Option<(string, string)>>, key: string) returns (i: nat)
    ensures LastOf(fields, key).None? ==> forall j :: 0 <= j < |fields| && fields[j].Some? ==> fields[j].value.0 != key
    ensures LastOf(fields, key).Some? ==>
              && i < |fields| && fields[i] == Some((key, LastOf(fields, key).value))
              && forall j :: i < j < |fields| && fields[j].Some? ==> fields[j].value.0 != key
  {
    i := 0;
    if fields == [] {
    } else {
      var n := |fields| - 1;
      if fields[n].Some? && fields[n].value.0 == key {
        i := n;
      } else {
        i := LastOfIs(fields[..n], key);
      }
    }
  }

  lemma {:induction false} FieldIsLast(lines: seq<string>, fields: seq<Option<(string, string)>>, key: string)
    requires |fields| == |lines| && forall j :: 0 <= j < |lines| ==> fields[j] == LineField(lines[j])
    ensures Field(lines, key) == LastOf(fields, key)
  {
    if lines == [] {
    } else {
      var n := |lines| - 1;
      FieldIsLast(lines[..n], fields[..n], key);
      assert fields[n] == LineField(lines[n]);
    }
  }

  /** A key has the value of the last line that has the key, and none if no line has. */
  lemma FieldIs(lines: seq<string>, fields: seq<Option<(string, string)>>, key: string) returns (i: nat)
    requires |fields| == |lines| && forall j :: 0 <= j < |lines| ==> fields[j] == LineField(lines[j])
    ensures Field(lines, key).None? ==> forall j :: 0 <= j < |fields| && fields[j].Some? ==> fields[j].value.0 != key
    ensures Field(lines, key).Some? ==>
              && i < |fields| && fields[i] == Some((key, Field(lines, key).value))
              && forall j :: i < j < |fields| && fields[j].Some? ==> fields[j].value.0 != key
  {
    FieldIsLast(lines, fields, key);
    i := LastOfIs(fields, key);
  }

  /** A file that does not open with a fence is an error, ... */
  lemma Unopened(content: string)
    ensures !("---\n" <= content) <==> Meaning(content) == Err("template must start with ---")
  {
  }

  /** ... and so is one that has no other. */
  lemma Unclosed(content: string)
    requires "---\n" <= content
    ensures Meaning(content) == Err("missing closing --- in front-matter")
       <==> forall i: nat :: i >= 4 ==> !OccursAt(content, "---\n", i)
  {
    var idx := Index(content[4..], FENCE);
    forall i: nat ensures OccursAt(content[4..], FENCE, i) <==> OccursAt(content, "---\n", i + 4) {
      Shifted(content, FENCE, i);
    }
    if idx.Some? {
      assert OccursAt(content, "---\n", idx.value + 4);
    } else {
      forall i: nat | i >= 4 ensures !OccursAt(content, "---\n", i) {
        assert !OccursAt(content[4..], FENCE, i - 4);
      }
    }
  }

  lemma Shifted(s: string, sub: string, i: nat)
    requires |s| >= 4
    ensures OccursAt(s[4..], sub, i) <==> OccursAt(s, sub, i + 4)
  {
    if i + 4 + |sub| <= |s| {
      assert s[4..][i..i + |sub|] == s[i + 4..i + 4 + |sub|];
    }
  }

  lemma FenceAfter(h: string, fence: string, rest: string)
    ensures OccursAt(h + (fence + rest), fence, |h|)
  {
    assert (h + (fence + rest))[|h|..|h| + |fence|] == fence;
  }

  /** Otherwise the header is what comes before the first closing fence, split into lines, and the
      body is what comes after it, trimmed; ... */
  lemma MeaningIs(h: string, rest: string)
    requires forall i: nat :: i < |h| ==> !OccursAt(h + (FENCE + rest), FENCE, i)
    ensures Meaning(FENCE + (h + (FENCE + rest))) == Assemble(Split(h, '\n'), TrimSpace(rest))
  {
    FenceAfter(h, FENCE, rest);
    MeaningWhenFenced(h, rest);
  }

  /** ... body and name must not be empty, and the channel must be one of the four. */
  lemma AssembleIs(lines: seq<string>, body: string)
    ensures var name, channel := Field(lines, "name"), Field(lines, "channel");
            Assemble(lines, body)
            == if body == "" then Err("template body is empty")
               else if name == None || name == Some("") then Err("template name is required in front-matter")
               else if channel !in {Some("email"), Some("push"), Some("sms"), Some("inapp")} then
                 Err("invalid channel in front-matter")
               else Ok(TemplateFile(name.value, channel.value, Field(lines, "subject"), body))
  {
  }

  /** One more line either sets the key or leaves it as it was. */
  lemma FieldStep(lines: seq<string>, line: string, key: string)
    ensures Field(lines + [line], key)
         == (var f := LineField(line); if f.Some? && f.value.0 == key then Some(f.value.1) else Field(lines, key))
  {
    assert (lines + [line])[..|lines|] == lines;
  }

  /** What the first n lines say. */
  predicate Parsed(lines: seq<string>, n: nat, name: string, channel: string, subject: Option<string>)
    requires n <= |lines|
  {
    && name == FieldOr(lines[..n], "name", "") && channel == FieldOr(lines[..n], "channel", "")
    && subject == Field(lines[..n], "subject")
  }

  lemma ParsedNext(lines: seq<string>, n: nat, name: string, channel: string, subject: Option<string>, f: Option<(string, string)>)
    requires n < |lines| && Parsed(lines, n, name, channel, subject) && f == LineField(lines[n])
    ensures Parsed(lines, n + 1, if f.Some? && f.value.0 == "name" then f.value.1 else name,
                   if f.Some? && f.value.0 == "channel" then f.value.1 else channel,
                   if f.Some? && f.value.0 == "subject" then Some(f.value.1) else subject)
  {
    assert lines[..n + 1] == lines[..n] + [lines[n]];
    FieldStep(lines[..n], lines[n], "name");
    FieldStep(lines[..n], lines[n], "channel");
    FieldStep(lines[..n], lines[n], "subject");
  }

  /** The line loop assigns fields as it goes, later lines overwriting earlier. */
  method ParseLines(lines: seq<string>) returns (name: string, channel: string, subject: Option<string>)
    ensures name == FieldOr(lines, "name", "") && channel == FieldOr(lines, "channel", "")
    ensures subject == Field(lines, "subject")
  {
    name, channel, subject := "", "", None;
    var i := 0;
    while i < |lines|
      invariant 0 <= i <= |lines|
      invariant Parsed(lines, i, name, channel, subject)
    {
      ParsedNext(lines, i, name, channel, subject, LineField(lines[i]));
      var line := TrimSpace(lines[i]);
      i := i + 1;
      if line == "" {
        continue;
      }
      var colon := IndexOf(line, ':');
      if colon.None? {
        continue;
      }
      var key, val := TrimSpace(line[..colon.value]), TrimSpace(line[colon.value + 1..]);
      if key == "name" {
        name := val;
      } else if key == "channel" {
        channel := val;
      } else if key == "subject" {
        subject := Some(val);
      }
    }
    assert lines[..|lines|] == lines;
  }

  /** parseFile */
  method ParseFile(content: string) returns (r: Result<TemplateFile>)
    ensures r == Meaning(content)
  {
    if !(FENCE <= content) {
      return Err("template must start with ---");
    }
    var idx := Index(content[4..], FENCE);
    if idx.None? {
      return Err("missing closing --- in front-matter");
    }
    var frontMatter := content[4..4 + idx.value];
    var body := TrimSpace(content[4 + idx.value + 4..]);
    if body == "" {
      return Err("template body is empty");
    }
    var name, channel, subject := ParseLines(Split(frontMatter, '\n'));
    if name == "" {
      return Err("template name is required in front-matter");
    }
    if !IsChannel(channel) {
      return Err("invalid channel in front-matter");
    }
    r := Ok(TemplateFile(name, channel, subject, body));
  }

  // -------------------------------------------------------- canonical rendering

  function HeaderLine(key: string, value: string): string {
    key + ": " + value
  }

  function SubjectPart(t: TemplateFile): string {
    if t.subject.Some? then HeaderLine("subject", t.subject.value) + "\n" else ""
  }

  function Header(t: TemplateFile): string {
    HeaderLine("name", t.name) + "\n" + (HeaderLine("channel", t.channel) + "\n" + SubjectPart(t))
  }

  function Render(t: TemplateFile): string {
    FENCE + (Header(t) + (FENCE + t.body))
  }

  predicate EndsInDashes(s: string) {
    |s| >= 3 && s[|s| - 3..] == "---"
  }

  /** What a template file can say: trimmed one-line values and a non-empty trimmed body. */
  predicate WellFormed(t: TemplateFile) {
    && t.name != "" && Trimmed(t.name) && '\n' !in t.name
    && IsChannel(t.channel)
    && (t.subject.Some? ==> Trimmed(t.subject.value) && '\n' !in t.subject.value)
    && t.body != "" && Trimmed(t.body)
  }

  // ------------------------------------------------------------ where the fence is

  /** A fence in line + "\n" + rest lies at the end of the line or within the rest. */
  lemma FenceAfterLine(line: string, rest: string, j: nat)
    requires '\n' !in line && OccursAt(line + "\n" + rest, FENCE, j)
    ensures (EndsInDashes(line) && j == |line| - 3) || (j > |line| && OccursAt(rest, FENCE, j - |line| - 1))
  {
    var s := line + "\n" + rest;
    var f := s[j..j + 4];
    assert f == FENCE && f[0] == '-' && f[1] == '-' && f[2] == '-' && f[3] == '\n';
    assert s[j] == '-' && s[j + 1] == '-' && s[j + 2] == '-' && s[j + 3] == '\n';
    assert j + 3 >= |line| && s[|line|] == '\n';
    if j > |line| {
      assert rest[j - |line| - 1..j - |line| + 3] == s[j..j + 4];
    } else {
      assert j + 3 == |line|;
      assert line[j..] == "---";
    }
  }

  /** A line ending in dashes does make a fence. */
  lemma DashedLineIsFence(line: string, rest: string)
    requires EndsInDashes(line)
    ensures OccursAt(line + "\n" + rest, FENCE, |line| - 3)
  {
    var s := line + "\n" + rest;
    assert s[|line| - 3..|line| + 1] == line[|line| - 3..] + "\n";
  }

  lemma HeaderLineShape(key: string, value: string)
    requires '\n' !in key && '\n' !in value
    ensures '\n' !in HeaderLine(key, value)
    ensures EndsInDashes(HeaderLine(key, value)) <==> EndsInDashes(value)
  {
    var l := HeaderLine(key, value);
    assert l == key + ":" + " " + value;
    assert l[|key| + 1] == ' ';
    if |value| >= 3 {
      assert l[|l| - 3..] == value[|value| - 3..];
    } else if |l| >= 3 {
      assert l[|l| - 3..][|key| + 1 - (|l| - 3)] == ' ' != "---"[|key| + 1 - (|l| - 3)];
    }
  }

  /** The first fence of s is at position i. */
  ghost predicate FenceFirstAt(s: string, i: int) {
    0 <= i && OccursAt(s, FENCE, i) && forall j: nat :: j < i ==> !OccursAt(s, FENCE, j)
  }

  lemma FirstIsIndex(s: string, i: nat)
    requires FenceFirstAt(s, i)
    ensures Index(s, FENCE) == Some(i)
  {
    var r := Index(s, FENCE);
    assert r.Some? && r.value <= i;
  }

  /** The first fence is at the end of a line that ends in dashes, ... */
  lemma FirstFenceHere(line: string, rest: string)
    requires '\n' !in line && EndsInDashes(line)
    ensures FenceFirstAt(line + "\n" + rest, |line| - 3)
  {
    DashedLineIsFence(line, rest);
    forall j: nat | j < |line| - 3 ensures !OccursAt(line + "\n" + rest, FENCE, j) {
      if OccursAt(line + "\n" + rest, FENCE, j) {
        FenceAfterLine(line, rest, j);
      }
    }
  }

  /** ... and otherwise it is the first fence of what follows the line. */
  lemma FirstFenceLater(line: string, rest: string, i: nat)
    requires '\n' !in line && !EndsInDashes(line) && FenceFirstAt(rest, i)
    ensures FenceFirstAt(line + "\n" + rest, |line| + 1 + i)
  {
    var s := line + "\n" + rest;
    assert s[|line| + 1 + i..|line| + 1 + i + 4] == rest[i..i + 4];
    forall j: nat | j < |line| + 1 + i ensures !OccursAt(s, FENCE, j) {
      if OccursAt(s, FENCE, j) {
        FenceAfterLine(line, rest, j);
      }
    }
  }

  lemma FirstFenceClose(body: string)
    ensures FenceFirstAt(FENCE + body, 0)
  {
    assert (FENCE + body)[0..4] == FENCE;
  }

  /** No header line of the canonical rendering ends in dashes. */
  predicate Fenced(t: TemplateFile) {
    !EndsInDashes(t.name) && (t.subject.Some? ==> !EndsInDashes(t.subject.value))
  }

  function DashedSubject(t: TemplateFile): nat {
    if t.subject.Some? && EndsInDashes(t.subject.value) then 4 else 0
  }

  lemma SubjectFence(t: TemplateFile)
    requires t.subject.Some? ==> '\n' !in t.subject.value
    ensures FenceFirstAt(SubjectPart(t) + (FENCE + t.body), |SubjectPart(t)| - DashedSubject(t))
  {
    var close := FENCE + t.body;
    FirstFenceClose(t.body);
    if t.subject.Some? {
      var line := HeaderLine("subject", t.subject.value);
      HeaderLineShape("subject", t.subject.value);
      if EndsInDashes(line) {
        FirstFenceHere(line, close);
      } else {
        FirstFenceLater(line, close, 0);
      }
    } else {
      assert SubjectPart(t) + close == close;
    }
  }

  lemma TwoLineFence(l1: string, l2: string, tail: string, i: nat)
    requires '\n' !in l1 && '\n' !in l2 && !EndsInDashes(l2) && FenceFirstAt(tail, i)
    ensures FenceFirstAt(l1 + "\n" + (l2 + "\n" + tail), if EndsInDashes(l1) then |l1| - 3 else |l1| + 1 + |l2| + 1 + i)
  {
    if EndsInDashes(l1) {
      FirstFenceHere(l1, l2 + "\n" + tail);
    } else {
      FirstFenceLater(l2, tail, i);
      FirstFenceLater(l1, l2 + "\n" + tail, |l2| + 1 + i);
    }
  }

  lemma LastDash(s: string)
    ensures EndsInDashes(s) ==> s[|s| - 1] == '-'
  {
    if |s| >= 3 {
      assert s[|s| - 3..][2] == s[|s| - 1];
    }
  }

  predicate IsWord(s: string) {
    s != "" && forall i :: 0 <= i < |s| ==> 'a' <= s[i] <= 'z'
  }

  lemma WordShape(s: string)
    requires IsWord(s)
    ensures '\n' !in s && !EndsInDashes(s) && Trimmed(s)
  {
    LastDash(s);
  }

  lemma ChannelShape(channel: string)
    requires IsChannel(channel)
    ensures '\n' !in channel && !EndsInDashes(channel) && Trimmed(channel)
  {
    assert IsWord("email") && IsWord("push") && IsWord("sms") && IsWord("inapp");
    WordShape(channel);
  }

  lemma HeaderFence(l1: string, l2: string, sub: string, close: string, i: nat)
    requires '\n' !in l1 && '\n' !in l2 && !EndsInDashes(l2) && FenceFirstAt(sub + close, i)
    ensures FenceFirstAt(l1 + "\n" + (l2 + "\n" + sub) + close,
                         if EndsInDashes(l1) then |l1| - 3 else |l1| + 1 + |l2| + 1 + i)
  {
    TwoLineFence(l1, l2, sub + close, i);
    Regroup(l1, l2, sub, close);
  }

  /** Where the first fence of a rendering is: at the end of the first header line that ends
      in dashes, or after the whole header if none does. */
  lemma FirstFence(t: TemplateFile)
    requires WellFormed(t)
    ensures FenceFirstAt(Header(t) + (FENCE + t.body), FencePosition(t))
  {
    SubjectFence(t);
    HeaderLinesShape(t);
    FirstFenceFrom(t, HeaderLine("name", t.name), HeaderLine("channel", t.channel), |SubjectPart(t)| - DashedSubject(t));
  }

  lemma HeaderLinesShape(t: TemplateFile)
    requires WellFormed(t)
    ensures var l1, l2 := HeaderLine("name", t.name), HeaderLine("channel", t.channel);
            && '\n' !in l1 && '\n' !in l2 && !EndsInDashes(l2) && (EndsInDashes(l1) <==> EndsInDashes(t.name))
  {
    ChannelShape(t.channel);
    HeaderLineShape("channel", t.channel);
    HeaderLineShape("name", t.name);
  }

  lemma FirstFenceFrom(t: TemplateFile, l1: string, l2: string, i: nat)
    requires l1 == HeaderLine("name", t.name) && l2 == HeaderLine("channel", t.channel)
    requires '\n' !in l1 && '\n' !in l2 && !EndsInDashes(l2) && (EndsInDashes(l1) <==> EndsInDashes(t.name))
    requires i == |SubjectPart(t)| - DashedSubject(t) && FenceFirstAt(SubjectPart(t) + (FENCE + t.body), i)
    ensures FenceFirstAt(Header(t) + (FENCE + t.body), FencePosition(t))
  {
    HeaderFence(l1, l2, SubjectPart(t), FENCE + t.body, i);
    FenceIs(t, l1, l2, i);
  }

  lemma FenceIs(t: TemplateFile, l1: string, l2: string, i: nat)
    requires l1 == HeaderLine("name", t.name) && l2 == HeaderLine("channel", t.channel)
    requires EndsInDashes(l1) <==> EndsInDashes(t.name)
    requires i == |SubjectPart(t)| - DashedSubject(t)
    ensures FencePosition(t) == if EndsInDashes(l1) then |l1| - 3 else |l1| + 1 + |l2| + 1 + i
  {
  }

  lemma Regroup(a: string, b: string, c: string, d: string)
    ensures a + "\n" + (b + "\n" + c) + d == a + "\n" + (b + "\n" + (c + d))
  {
  }

  function FencePosition(t: TemplateFile): nat {
    if EndsInDashes(t.name) then |HeaderLine("name", t.name)| - 3
    else |Header(t)| - DashedSubject(t)
  }

  lemma JoinAt(a: string, b: string, c: string)
    requires b != ""
    ensures (a + (b + c))[|a|] == b[0]
  {
  }

  /** What follows a fence that comes too early starts with the next line, not with a blank. */
  lemma AfterEarlyFence(t: TemplateFile)
    requires WellFormed(t) && !Fenced(t)
    ensures FencePosition(t) + 4 < |Header(t) + (FENCE + t.body)|
    ensures !IsSpace((Header(t) + (FENCE + t.body))[FencePosition(t) + 4])
  {
    if EndsInDashes(t.name) {
      var l1, l2 := HeaderLine("name", t.name) + "\n", HeaderLine("channel", t.channel);
      var rest := ("\n" + SubjectPart(t)) + (FENCE + t.body);
      assert Header(t) + (FENCE + t.body) == l1 + (l2 + rest);
      JoinAt(l1, l2, rest);
      assert l2[0] == 'c';
    } else {
      JoinAt(Header(t), FENCE, t.body);
    }
  }

  // ------------------------------------------------------------- reading the lines

  predicate PlainKey(key: string) {
    key != "" && ':' !in key && Trimmed(key)
  }

  lemma TrimLine(key: string, value: string)
    requires PlainKey(key) && Trimmed(value)
    ensures TrimSpace(HeaderLine(key, value)) == key + [':'] + (if value == "" then "" else [' '] + value)
  {
    var head := key + [':'];
    var line := HeaderLine(key, value);
    if value == "" {
      assert line == head + [' '];
      assert Trimmed(head);
      TrimPadded(head);
    } else {
      assert line == head + ([' '] + value);
      assert line[|line| - 1] == value[|value| - 1] && line[0] == key[0];
      TrimPadded(line);
    }
  }

  lemma ReadLine(key: string, value: string)
    requires PlainKey(key) && Trimmed(value)
    ensures LineField(HeaderLine(key, value)) == Some((key, value))
  {
    var tail := if value == "" then "" else [' '] + value;
    var l := key + [':'] + tail;
    TrimLine(key, value);
    FirstIndex(key, ':', tail);
    assert l[..|key|] == key && l[|key| + 1..] == tail;
    TrimPadded(key);
    TrimPadded(value);
  }

  function SubjectLines(t: TemplateFile): seq<string> {
    if t.subject.Some? then [HeaderLine("subject", t.subject.value), ""] else [""]
  }

  lemma SplitSubject(t: TemplateFile)
    requires t.subject.Some? ==> '\n' !in t.subject.value
    ensures Split(SubjectPart(t), '\n') == SubjectLines(t)
  {
    if t.subject.Some? {
      var line := HeaderLine("subject", t.subject.value);
      HeaderLineShape("subject", t.subject.value);
      assert SubjectPart(t) == line + ['\n'] + "";
      SplitLine(line, '\n', "");
    }
  }

  lemma SplitTwo(l1: string, l2: string, rest: string)
    requires '\n' !in l1 && '\n' !in l2
    ensures Split(l1 + "\n" + (l2 + "\n" + rest), '\n') == [l1, l2] + Split(rest, '\n')
  {
    SplitLine(l1, '\n', l2 + ['\n'] + rest);
    SplitLine(l2, '\n', rest);
  }

  lemma SplitHeader(t: TemplateFile)
    requires WellFormed(t)
    ensures Split(Header(t), '\n') == [HeaderLine("name", t.name), HeaderLine("channel", t.channel)] + SubjectLines(t)
  {
    ChannelShape(t.channel);
    HeaderLineShape("name", t.name);
    HeaderLineShape("channel", t.channel);
    SplitTwo(HeaderLine("name", t.name), HeaderLine("channel", t.channel), SubjectPart(t));
    SplitSubject(t);
  }

  /** Looking a key up among lines whose fields are known. */
  lemma FieldOfTwo(l1: string, l2: string, f1: (string, string), f2: (string, string), key: string)
    requires LineField(l1) == Some(f1) && LineField(l2) == Some(f2)
    ensures Field([l1, l2, ""], key)
         == if f2.0 == key then Some(f2.1) else if f1.0 == key then Some(f1.1) else None
  {
    FieldStep([], l1, key);
    FieldStep([l1], l2, key);
    FieldStep([l1, l2], "", key);
    assert [] + [l1] == [l1] && [l1] + [l2] == [l1, l2] && [l1, l2] + [""] == [l1, l2, ""];
  }

  lemma FieldOfThree(l1: string, l2: string, l3: string,
                     f1: (string, string), f2: (string, string), f3: (string, string), key: string)
    requires LineField(l1) == Some(f1) && LineField(l2) == Some(f2) && LineField(l3) == Some(f3)
    ensures Field([l1, l2, l3, ""], key)
         == if f3.0 == key then Some(f3.1) else if f2.0 == key then Some(f2.1)
            else if f1.0 == key then Some(f1.1) else None
  {
    FieldStep([], l1, key);
    FieldStep([l1], l2, key);
    FieldStep([l1, l2], l3, key);
    FieldStep([l1, l2, l3], "", key);
    assert [] + [l1] == [l1] && [l1] + [l2] == [l1, l2];
    assert [l1, l2] + [l3] == [l1, l2, l3] && [l1, l2, l3] + [""] == [l1, l2, l3, ""];
  }

  lemma ReadTwo(name: string, channel: string, key: string)
    requires Trimmed(name) && Trimmed(channel)
    ensures Field([HeaderLine("name", name), HeaderLine("channel", channel), ""], key)
         == if key == "channel" then Some(channel) else if key == "name" then Some(name) else None
  {
    ReadLine("name", name);
    ReadLine("channel", channel);
    FieldOfTwo(HeaderLine("name", name), HeaderLine("channel", channel), ("name", name), ("channel", channel), key);
  }

  lemma ReadThree(name: string, channel: string, subject: string, key: string)
    requires Trimmed(name) && Trimmed(channel) && Trimmed(subject)
    ensures Field([HeaderLine("name", name), HeaderLine("channel", channel), HeaderLine("subject", subject), ""], key)
         == if key == "subject" then Some(subject) else if key == "channel" then Some(channel)
            else if key == "name" then Some(name) else None
  {
    ReadLine("name", name);
    ReadLine("channel", channel);
    ReadLine("subject", subject);
    FieldOfThree(HeaderLine("name", name), HeaderLine("channel", channel), HeaderLine("subject", subject),
                 ("name", name), ("channel", channel), ("subject", subject), key);
  }

  /** Reading the header of a rendering gives back what was rendered. */
  lemma ReadHeader(t: TemplateFile)
    requires WellFormed(t)
    ensures Assemble(Split(Header(t), '\n'), t.body) == Ok(t)
  {
    var l1, l2 := HeaderLine("name", t.name), HeaderLine("channel", t.channel);
    SplitHeader(t);
    ChannelShape(t.channel);
    if t.subject.Some? {
      var lines := [l1, l2, HeaderLine("subject", t.subject.value), ""];
      assert [l1, l2] + SubjectLines(t) == lines;
      AssembleThree(t, lines);
    } else {
      assert [l1, l2] + SubjectLines(t) == [l1, l2, ""];
      AssembleTwo(t, [l1, l2, ""]);
    }
  }

  lemma AssembleTwo(t: TemplateFile, lines: seq<string>)
    requires WellFormed(t) && t.subject.None? && Trimmed(t.channel)
    requires lines == [HeaderLine("name", t.name), HeaderLine("channel", t.channel), ""]
    ensures Assemble(lines, t.body) == Ok(t)
  {
    ReadTwo(t.name, t.channel, "name");
    ReadTwo(t.name, t.channel, "channel");
    ReadTwo(t.name, t.channel, "subject");
  }

  lemma AssembleThree(t: TemplateFile, lines: seq<string>)
    requires WellFormed(t) && t.subject.Some? && Trimmed(t.channel)
    requires lines == [HeaderLine("name", t.name), HeaderLine("channel", t.channel), HeaderLine("subject", t.subject.value), ""]
    ensures Assemble(lines, t.body) == Ok(t)
  {
    ReadThree(t.name, t.channel, t.subject.value, "name");
    ReadThree(t.name, t.channel, t.subject.value, "channel");
    ReadThree(t.name, t.channel, t.subject.value, "subject");
  }

  // -------------------------------------------------------------- the round trip

  /** A file whose first fence after the opening one closes the header h. */
  lemma MeaningWhenFenced(h: string, body: string)
    requires FenceFirstAt(h + (FENCE + body), |h|)
    ensures Meaning(FENCE + (h + (FENCE + body))) == Assemble(Split(h, '\n'), TrimSpace(body))
  {
    Pieces(FENCE, h, body);
    FirstIsIndex(h + (FENCE + body), |h|);
  }

  lemma Pieces(fence: string, h: string, body: string)
    requires |fence| == 4
    ensures var content := fence + (h + (fence + body));
            && fence <= content && content[4..] == h + (fence + body)
            && content[4..4 + |h|] == h && content[4 + |h| + 4..] == body
  {
  }

  /** A file with a fence before the end of h is read with a longer body. */
  lemma MeaningWhenEarly(h: string, body: string, i: nat)
    requires FenceFirstAt(h + (FENCE + body), i) && i < |h| && body != "" && Trimmed(body)
    requires !IsSpace((h + (FENCE + body))[i + 4])
    ensures var r := Meaning(FENCE + (h + (FENCE + body))); r.Ok? ==> |r.value.body| > |body|
  {
    var content, tail := FENCE + (h + (FENCE + body)), h + (FENCE + body);
    assert content[4..] == tail;
    FirstIsIndex(tail, i);
    var rest := content[4 + i + 4..];
    assert rest == tail[i + 4..];
    assert rest[0] == tail[i + 4] && rest[|rest| - 1] == body[|body| - 1];
    TrimPadded(rest);
  }

  /** Front-matter round trip.  Parsing the canonical rendering of a template gives back exactly
      that template, whatever colons its values hold and whatever dashes its body holds, if and
      only if neither the name nor the subject ends in three dashes. */
  lemma RoundTrip(t: TemplateFile)
    requires WellFormed(t)
    ensures Meaning(Render(t)) == Ok(t) <==> Fenced(t)
  {
    FirstFence(t);
    if Fenced(t) {
      ReadHeader(t);
      MeaningWhenFenced(Header(t), t.body);
      TrimPadded(t.body);
    } else {
      AfterEarlyFence(t);
      MeaningWhenEarly(Header(t), t.body, FencePosition(t));
    }
  }

  /** A template that does not come back: its name ends in three dashes. */
  lemma DashedName()
    ensures var t := TemplateFile("welcome---", "email", None, "hello"); WellFormed(t) && Meaning(Render(t)) != Ok(t)
  {
    var t := TemplateFile("welcome---", "email", None, "hello");
    RoundTrip(t);
  }
}
