/**
 The parser of pasted OCI configs: one pass over the lines with a current profile, proved equal to
 cutting the text into sections and reading each on its own.
 */
module OciConfig {
  import opened Prelude

  datatype Profile = Profile(name: string, tenancy: string, user: string, fingerprint: string, region: string,
      keyFile: string)

  function Blank(name: string): Profile {
    Profile(name, "", "", "", "", "")
  }

  /** A profile without any of these four values is not reported. */
  predicate Reported(p: Profile) {
    p.tenancy != "" || p.user != "" || p.fingerprint != "" || p.region != ""
  }

  // ----- lines -----

  datatype Entry = Header(name: string) | Pair(key: string, value: string)

  function DropCR(line: string): string {
    if line != "" && line[|line| - 1] == '\r' then line[..|line| - 1] else line
  }

  function FirstLine(raw: string): string {
    DropCR(raw[..FirstLineEnd(raw)])
  }

  function FirstLineEnd(raw: string): (n: nat)
    ensures n <= |raw|
    ensures n < |raw| ==> raw[n] == '\n'
  {
    if raw == "" || raw[0] == '\n' then 0 else 1 + FirstLineEnd(raw[1..])
  }

  function AfterFirstLine(raw: string): (rest: string)
    ensures raw != "" ==> |rest| < |raw|
  {
    if FirstLineEnd(raw) < |raw| then raw[FirstLineEnd(raw) + 1..] else ""
  }

  function Lines(raw: string): seq<string>
    decreases |raw|
  {
    if raw == "" then [] else [FirstLine(raw)] + Lines(AfterFirstLine(raw))
  }

  predicate IsHeader(line: string): (header: bool)
    ensures header ==> |line| >= 2
  {
    |line| >= 2 && line[0] == '[' && line[|line| - 1] == ']'
  }

  function BeforeHash(v: string): string {
    if v == "" || OccursAt(v, " #", 0) then "" else [v[0]] + BeforeHash(v[1..])
  }

  function CutValue(v: string): string {
    if Contains(v, " #") then TrimSpace(BeforeHash(v)) else v
  }

  /** A line is a section header, an assignment, or nothing. */
  function ReadLine(text: string): Option<Entry> {
    var line := TrimSpace(text);
    if line == "" || line[0] == '#' || line[0] == ';' then None
    else if IsHeader(line) then Some(Header(TrimSpace(line[1..|line| - 1])))
    else if '=' in line
    then Some(Pair(Lower(TrimSpace(line[..KeyEnd(line)])), CutValue(TrimSpace(line[KeyEnd(line) + 1..]))))
    else None
  }

  function KeyEnd(line: string): (n: nat)
    requires '=' in line
    ensures n < |line| && line[n] == '=' && '=' !in line[..n]
  {
    if line[0] == '=' then 0
    else
      assert line == [line[0]] + line[1..];
      1 + KeyEnd(line[1..])
  }

  function Entries(lines: seq<string>): seq<Entry> {
    if lines == [] then []
    else
      var entry := ReadLine(lines[|lines| - 1]);
      Entries(lines[..|lines| - 1]) + if entry.Some? then [entry.value] else []
  }

  // ----- sections -----

  datatype Section = Section(name: string, body: seq<Entry>)

  /** A header opens a section, an assignment goes into the last one. */
  function Extended(sections: seq<Section>, entry: Entry): (longer: seq<Section>)
    requires sections != []
    ensures |longer| >= |sections|
  {
    var last := sections[|sections| - 1];
    if entry.Header? then sections + [Section(entry.name, [])]
    else sections[..|sections| - 1] + [Section(last.name, last.body + [entry])]
  }

  /** What comes before the first header belongs to DEFAULT. */
  function Sections(entries: seq<Entry>): (sections: seq<Section>)
    ensures sections != []
  {
    if entries == [] then [Section("DEFAULT", [])]
    else Extended(Sections(entries[..|entries| - 1]), entries[|entries| - 1])
  }

  /** The last assignment of a key wins. */
  function LastValue(body: seq<Entry>, key: string): string {
    if body == [] then ""
    else
      var entry := body[|body| - 1];
      if entry.Pair? && entry.key == key then entry.value else LastValue(body[..|body| - 1], key)
  }

  function ProfileOf(s: Section): Profile {
    Profile(s.name, LastValue(s.body, "tenancy"), LastValue(s.body, "user"),
            Lower(LastValue(s.body, "fingerprint")), Lower(LastValue(s.body, "region")), LastValue(s.body, "key_file"))
  }

  function ReportOf(sections: seq<Section>): seq<Profile> {
    if sections == [] then []
    else
      var p := ProfileOf(sections[|sections| - 1]);
      ReportOf(sections[..|sections| - 1]) + if Reported(p) then [p] else []
  }

  function Parsed(lines: seq<string>): seq<Profile> {
    ReportOf(Sections(Entries(lines)))
  }

  // ----- the parser -----

  function Assigned(cur: Profile, key: string, value: string): Profile {
    if key == "tenancy" then cur.(tenancy := value)
    else if key == "user" then cur.(user := value)
    else if key == "fingerprint" then cur.(fingerprint := Lower(value))
    else if key == "region" then cur.(region := Lower(value))
    else if key == "key_file" then cur.(keyFile := value)
    else cur
  }

  method Assign(cur: Profile, key: string, value: string) returns (next: Profile)
    ensures next == Assigned(cur, key, value)
  {
    next := cur;
    match key {
      case "tenancy" => next := next.(tenancy := value);
      case "user" => next := next.(user := value);
      case "fingerprint" => next := next.(fingerprint := Lower(value));
      case "region" => next := next.(region := Lower(value));
      case "key_file" => next := next.(keyFile := value);
      case _ =>
    }
  }

  ghost predicate UpTo(entries: seq<Entry>, cur: Profile, started: bool, out: seq<Profile>) {
    var sections := Sections(entries);
    && cur == ProfileOf(sections[|sections| - 1])
    && out == ReportOf(sections[..|sections| - 1])
    && (Reported(cur) ==> started)
  }

  lemma LowerNothing()
    ensures Lower("") == ""
  {
  }

  lemma SectionsStep(entries: seq<Entry>, entry: Entry)
    ensures Sections(entries + [entry]) == Extended(Sections(entries), entry)
  {
    hide Extended;
    assert (entries + [entry])[..|entries|] == entries;
  }

  lemma AfterHeader(entries: seq<Entry>, name: string, cur: Profile, started: bool, out: seq<Profile>)
    requires UpTo(entries, cur, started, out)
    ensures UpTo(entries + [Header(name)], Blank(name), true, if started && Reported(cur) then out + [cur] else out)
  {
    hide Lower;
    var sections := Sections(entries);
    SectionsStep(entries, Header(name));
    assert (sections + [Section(name, [])])[..|sections|] == sections;
    LowerNothing();
  }

  lemma LastValueStep(body: seq<Entry>, key: string, value: string, asked: string)
    ensures LastValue(body + [Pair(key, value)], asked) == if key == asked then value else LastValue(body, asked)
  {
    assert (body + [Pair(key, value)])[..|body|] == body;
  }

  lemma AfterAssignment(s: Section, key: string, value: string)
    ensures ProfileOf(Section(s.name, s.body + [Pair(key, value)])) == Assigned(ProfileOf(s), key, value)
  {
    LastValueStep(s.body, key, value, "tenancy");
    LastValueStep(s.body, key, value, "user");
    LastValueStep(s.body, key, value, "fingerprint");
    LastValueStep(s.body, key, value, "region");
    LastValueStep(s.body, key, value, "key_file");
  }

  lemma AfterPair(entries: seq<Entry>, key: string, value: string, cur: Profile, started: bool, out: seq<Profile>)
    requires UpTo(entries, cur, started, out)
    ensures UpTo(entries + [Pair(key, value)], Assigned(cur, key, value), true, out)
  {
    hide ProfileOf;
    hide Assigned;
    hide ReportOf;
    var sections, longer := Sections(entries), entries + [Pair(key, value)];
    SectionsStep(entries, Pair(key, value));
    var front, last := sections[..|sections| - 1], sections[|sections| - 1];
    assert Sections(longer)[..|sections| - 1] == front;
    AfterAssignment(last, key, value);
  }

  lemma EntriesStep(lines: seq<string>, line: string)
    ensures Entries(lines + [line]) ==
            if ReadLine(line).Some? then Entries(lines) + [ReadLine(line).value] else Entries(lines)
  {
    hide ReadLine;
    assert (lines + [line])[..|lines|] == lines;
  }

  lemma NothingRead()
    ensures UpTo(Entries([]), Blank("DEFAULT"), false, [])
  {
    LowerNothing();
  }

  lemma LinesStep(raw: string)
    requires raw != ""
    ensures Lines(raw) == [FirstLine(raw)] + Lines(AfterFirstLine(raw))
  {
  }

  lemma LinesEnd()
    ensures Lines("") == [] && Entries([]) == []
  {
  }

  /** The parser's tests, in its order, tell the three kinds of lines apart. */
  lemma CaseOf(text: string)
    ensures var line := TrimSpace(text);
            && (line == "" || line[0] == '#' || line[0] == ';' ==> ReadLine(text) == None)
            && (line != "" && line[0] != '#' && line[0] != ';' ==>
                  && (IsHeader(line) ==> ReadLine(text) == Some(Header(TrimSpace(line[1..|line| - 1]))))
                  && (!IsHeader(line) && '=' !in line ==> ReadLine(text) == None)
                  && (!IsHeader(line) && '=' in line ==>
                        var key, value := TrimSpace(line[..KeyEnd(line)]), TrimSpace(line[KeyEnd(line) + 1..]);
                        ReadLine(text) == Some(Pair(Lower(key), CutValue(value)))))
  {
    hide TrimSpace;
    hide BeforeHash;
    hide KeyEnd;
  }

  lemma Finished(lines: seq<string>, cur: Profile, started: bool, out: seq<Profile>)
    requires UpTo(Entries(lines), cur, started, out)
    ensures Parsed(lines) == if started && Reported(cur) then out + [cur] else out
  {
    hide ProfileOf;
    hide Entries;
  }

  method TrimComment(v: string) returns (value: string)
    ensures value == CutValue(v)
  {
    value := v;
    if Contains(value, " #") {
      value := TrimSpace(BeforeHash(value));
    }
  }

  method ParseOCIConfig(raw: string) returns (out: seq<Profile>)
    ensures out == Parsed(Lines(raw))
  {
    hide *;
    out := [];
    var cur, started, rest := Blank("DEFAULT"), false, raw;
    ghost var read: seq<string> := [];
    NothingRead();
    while rest != ""
      invariant Lines(raw) == read + Lines(rest)
      invariant UpTo(Entries(read), cur, started, out)
      decreases |rest|
    {
      var text := FirstLine(rest);
      LinesStep(rest);
      EntriesStep(read, text);
      CaseOf(text);
      ghost var before := Entries(read);
      assert read + Lines(rest) == (read + [text]) + Lines(AfterFirstLine(rest));
      read := read + [text];
      rest := AfterFirstLine(rest);
      var line := TrimSpace(text);
      if line == "" || line[0] == '#' || line[0] == ';' {
        continue;
      }
      if IsHeader(line) {
        var name := TrimSpace(line[1..|line| - 1]);
        AfterHeader(before, name, cur, started, out);
        if started && Reported(cur) {
          out := out + [cur];
        }
        cur, started := Blank(name), true;
        continue;
      }
      if '=' !in line {
        continue;
      }
      var key := Lower(TrimSpace(line[..KeyEnd(line)]));
      var value := TrimComment(TrimSpace(line[KeyEnd(line) + 1..]));
      AfterPair(before, key, value, cur, started, out);
      started := true;
      cur := Assign(cur, key, value);
    }
    LinesEnd();
    assert read + Lines("") == read;
    Finished(read, cur, started, out);
    if started && Reported(cur) {
      out := out + [cur];
    }
  }

  // ----- sections are independent -----

  lemma {:induction false} EntriesConcat(a: seq<string>, b: seq<string>)
    ensures Entries(a + b) == Entries(a) + Entries(b)
  {
    hide ReadLine;
    if b == [] {
      assert a + b == a;
    } else {
      assert (a + b)[..|a + b| - 1] == a + b[..|b| - 1];
      EntriesConcat(a, b[..|b| - 1]);
    }
  }

  lemma {:induction false} ReportConcat(a: seq<Section>, b: seq<Section>)
    ensures ReportOf(a + b) == ReportOf(a) + ReportOf(b)
  {
    hide ProfileOf;
    if b == [] {
      assert a + b == a;
    } else {
      assert (a + b)[..|a + b| - 1] == a + b[..|b| - 1];
      ReportConcat(a, b[..|b| - 1]);
    }
  }

  function Joined(s: Section, lead: Section): Section {
    Section(s.name, s.body + lead.body)
  }

  /** Sections of a text behind another: the lead of the second goes into the last of the first. */
  function Stitched(a: seq<Section>, b: seq<Section>): seq<Section>
    requires a != [] && b != []
  {
    a[..|a| - 1] + [Joined(a[|a| - 1], b[0])] + b[1..]
  }

  lemma ExtendedStitched(a: seq<Section>, b: seq<Section>, entry: Entry)
    requires a != [] && b != []
    ensures Extended(Stitched(a, b), entry) == Stitched(a, Extended(b, entry))
  {
    var x, j := a[..|a| - 1], Joined(a[|a| - 1], b[0]);
    var all := Stitched(a, b);
    if entry.Header? {
      assert Extended(b, entry)[1..] == b[1..] + [Section(entry.name, [])];
    } else if |b| == 1 {
      assert all == x + [j] && all[..|all| - 1] == x;
      assert Extended(b, entry)[1..] == [];
      assert (a[|a| - 1].body + b[0].body) + [entry] == a[|a| - 1].body + (b[0].body + [entry]);
    } else {
      assert all[..|all| - 1] == x + [j] + b[1..|b| - 1];
      assert all[|all| - 1] == b[|b| - 1];
      assert Extended(b, entry)[1..] == b[1..|b| - 1] + [Section(b[|b| - 1].name, b[|b| - 1].body + [entry])];
    }
  }

  lemma {:induction false} SectionsConcat(a: seq<Entry>, b: seq<Entry>)
    ensures Sections(a + b) == Stitched(Sections(a), Sections(b))
  {
    hide Extended;
    if b == [] {
      hide Stitched;
      assert a + b == a;
      StitchedNothing(Sections(a));
    } else {
      hide Stitched;
      var front, last := b[..|b| - 1], b[|b| - 1];
      assert (a + b)[..|a + b| - 1] == a + front;
      SectionsConcat(a, front);
      ExtendedStitched(Sections(a), Sections(front), last);
    }
  }

  lemma StitchedNothing(a: seq<Section>)
    requires a != []
    ensures Stitched(a, [Section("DEFAULT", [])]) == a
  {
    assert a[|a| - 1].body + [] == a[|a| - 1].body;
  }

  const KNOWN_KEYS := {"tenancy", "user", "fingerprint", "region", "key_file"}

  ghost predicate Assigns(body: seq<Entry>, key: string) {
    exists e :: e in body && e.Pair? && e.key == key
  }

  /** Nothing in these lines is taken over. */
  ghost predicate Silent(body: seq<Entry>) {
    forall key :: key in KNOWN_KEYS ==> !Assigns(body, key)
  }

  lemma {:induction false} LastValueConcat(a: seq<Entry>, b: seq<Entry>, key: string)
    ensures LastValue(a + b, key) == if Assigns(b, key) then LastValue(b, key) else LastValue(a, key)
  {
    if b == [] {
      assert a + b == a;
    } else {
      var front, last := b[..|b| - 1], b[|b| - 1];
      assert (a + b)[..|a + b| - 1] == a + front;
      assert b == front + [last];
      assert last in b;
      LastValueConcat(a, front, key);
    }
  }

  /** One profile, or none, of a section. */
  function ReportOne(s: Section): seq<Profile> {
    if Reported(ProfileOf(s)) then [ProfileOf(s)] else []
  }

  lemma ReportSingle(s: Section)
    ensures ReportOf([s]) == ReportOne(s)
  {
    hide ProfileOf;
    assert [s][..0] == [];
  }

  lemma ReportStitched(a: seq<Section>, b: seq<Section>)
    requires a != [] && b != []
    ensures ReportOf(a) == ReportOf(a[..|a| - 1]) + ReportOne(a[|a| - 1])
    ensures ReportOf(b) == ReportOne(b[0]) + ReportOf(b[1..])
    ensures ReportOf(Stitched(a, b)) == ReportOf(a[..|a| - 1]) + ReportOne(Joined(a[|a| - 1], b[0])) + ReportOf(b[1..])
  {
    hide ReportOf;
    hide ReportOne;
    var x, last, joined := a[..|a| - 1], a[|a| - 1], Joined(a[|a| - 1], b[0]);
    assert a == x + [last] && b == [b[0]] + b[1..];
    ReportConcat(x, [last]);
    ReportConcat([b[0]], b[1..]);
    ReportConcat(x + [joined], b[1..]);
    ReportConcat(x, [joined]);
    ReportSingle(last);
    ReportSingle(b[0]);
    ReportSingle(joined);
  }

  lemma JoinedSilently(s: Section, lead: Section)
    requires Silent(lead.body)
    ensures ProfileOf(Joined(s, lead)) == ProfileOf(s)
  {
    hide Assigns;
    LastValueConcat(s.body, lead.body, "tenancy");
    LastValueConcat(s.body, lead.body, "user");
    LastValueConcat(s.body, lead.body, "fingerprint");
    LastValueConcat(s.body, lead.body, "region");
    LastValueConcat(s.body, lead.body, "key_file");
  }

  lemma SilentIsNotReported(lead: Section)
    requires Silent(lead.body)
    ensures ReportOne(lead) == []
  {
    hide ProfileOf;
    hide Silent;
    var empty := Section(lead.name, []);
    assert Joined(empty, lead) == Section(lead.name, [] + lead.body);
    assert [] + lead.body == lead.body;
    JoinedSilently(empty, lead);
    EmptyProfile(lead.name);
  }

  lemma EmptyProfile(name: string)
    ensures ProfileOf(Section(name, [])) == Blank(name)
  {
    LowerNothing();
  }

  /** The lines of b before its first header. */
  function Lead(b: seq<string>): Section {
    Sections(Entries(b))[0]
  }

  lemma ParsedConcat(a: seq<string>, b: seq<string>)
    ensures Parsed(a + b) == ReportOf(Stitched(Sections(Entries(a)), Sections(Entries(b))))
  {
    hide Entries;
    hide ReportOf;
    hide Stitched;
    EntriesConcat(a, b);
    SectionsConcat(Entries(a), Entries(b));
  }

  lemma SilentLeadSeparates(a: seq<string>, b: seq<string>)
    requires Silent(Lead(b).body)
    ensures Parsed(a + b) == Parsed(a) + Parsed(b)
  {
    hide Entries;
    hide ReportOf;
    hide ReportOne;
    hide Stitched;
    hide Silent;
    var x, y := Sections(Entries(a)), Sections(Entries(b));
    hide Sections;
    ParsedConcat(a, b);
    ReportStitched(x, y);
    SilentIsNotReported(y[0]);
    SameReport(x[|x| - 1], y[0]);
  }

  lemma SameReport(s: Section, lead: Section)
    requires Silent(lead.body)
    ensures ReportOne(Joined(s, lead)) == ReportOne(s)
  {
    hide ProfileOf;
    hide Silent;
    JoinedSilently(s, lead);
  }

  lemma {:induction false} LeadEndsAtHeader(entries: seq<Entry>)
    requires entries != [] && entries[0].Header?
    ensures Sections(entries)[0] == Section("DEFAULT", []) && |Sections(entries)| >= 2
  {
    if |entries| == 1 {
      assert entries[..0] == [];
    } else {
      LeadEndsAtHeader(entries[..|entries| - 1]);
    }
  }

  /** Keys do not bleed: text that starts with a header is parsed on its own, whatever precedes it. */
  lemma SectionsDoNotBleed(a: seq<string>, b: seq<string>)
    requires b != [] && ReadLine(b[0]).Some? && ReadLine(b[0]).value.Header?
    ensures Parsed(a + b) == Parsed(a) + Parsed(b)
  {
    hide *;
    OpensWithHeader(b);
    LeadIsEmpty(b);
    SilentLeadSeparates(a, b);
  }

  lemma LeadIsEmpty(b: seq<string>)
    requires Entries(b) != [] && Entries(b)[0].Header?
    ensures Silent(Lead(b).body)
  {
    hide Entries;
    LeadEndsAtHeader(Entries(b));
  }

  lemma OpensWithHeader(b: seq<string>)
    requires b != [] && ReadLine(b[0]).Some? && ReadLine(b[0]).value.Header?
    ensures Entries(b) != [] && Entries(b)[0].Header?
  {
    hide ReadLine;
    EntriesConcat([b[0]], b[1..]);
    assert b == [b[0]] + b[1..];
    EntriesStep([], b[0]);
    assert [] + [b[0]] == [b[0]];
  }

  /** A blank line, a comment, or any other line that is neither header nor assignment changes nothing,
      wherever it stands. */
  lemma NoiseChangesNothing(a: seq<string>, noise: string, b: seq<string>)
    requires ReadLine(noise) == None
    ensures Parsed(a + [noise] + b) == Parsed(a + b)
  {
    hide ReadLine;
    EntriesConcat(a + [noise], b);
    EntriesStep(a, noise);
    EntriesConcat(a, b);
  }

  // ----- the same for text -----

  lemma {:induction false} EndOfFirstLine(a: string, b: string)
    requires a != "" && a[|a| - 1] == '\n'
    ensures FirstLineEnd(a + b) == FirstLineEnd(a) < |a|
  {
    if a[0] != '\n' {
      assert (a + b)[1..] == a[1..] + b;
      EndOfFirstLine(a[1..], b);
    }
  }

  lemma FirstLineConcat(a: string, b: string)
    requires a != "" && EndsLine(a)
    ensures FirstLine(a + b) == FirstLine(a) && AfterFirstLine(a + b) == AfterFirstLine(a) + b
    ensures EndsLine(AfterFirstLine(a))
  {
    hide FirstLineEnd;
    hide DropCR;
    EndOfFirstLine(a, b);
    var n := FirstLineEnd(a);
    assert (a + b)[..n] == a[..n] && (a + b)[n + 1..] == a[n + 1..] + b;
  }

  ghost predicate EndsLine(a: string) {
    a == "" || a[|a| - 1] == '\n'
  }

  lemma LinesPrepend(first: string, a: seq<string>, b: seq<string>)
    ensures [first] + (a + b) == ([first] + a) + b
  {
  }

  lemma {:induction false} LinesConcat(a: string, b: string)
    requires EndsLine(a)
    ensures Lines(a + b) == Lines(a) + Lines(b)
    decreases |a|
  {
    if a == "" {
      assert a + b == b;
    } else {
      FirstLineConcat(a, b);
      hide *;
      LinesStep(a);
      LinesStep(a + b);
      LinesConcat(AfterFirstLine(a), b);
      LinesPrepend(FirstLine(a), Lines(AfterFirstLine(a)), Lines(b));
    }
  }

  lemma TextsDoNotBleed(a: string, b: string)
    requires EndsLine(a)
    requires b != "" && ReadLine(FirstLine(b)).Some? && ReadLine(FirstLine(b)).value.Header?
    ensures Parsed(Lines(a + b)) == Parsed(Lines(a)) + Parsed(Lines(b))
  {
    hide Parsed;
    hide ReadLine;
    LinesConcat(a, b);
    LinesStep(b);
    SectionsDoNotBleed(Lines(a), Lines(b));
  }

  // ----- a plainly written config reads back -----

  lemma TrimFixed(s: string)
    requires s == "" || (!IsSpace(s[0]) && !IsSpace(s[|s| - 1]))
    ensures TrimSpace(s) == s
  {
  }

  predicate PlainValue(v: string) {
    Trimmed(v) && !Contains(v, " #")
  }

  predicate PlainKey(k: string) {
    k != "" && Trimmed(k) && Lower(k) == k && '=' !in k && k[0] !in "#;["
  }

  lemma {:induction false} KeyEndsAt(k: string, v: string)
    requires '=' !in k
    ensures '=' in k + "=" + v && KeyEnd(k + "=" + v) == |k|
  {
    var line := k + "=" + v;
    assert line[|k|] == '=';
    if k != "" {
      assert k == [k[0]] + k[1..];
      assert line[1..] == k[1..] + "=" + v;
      KeyEndsAt(k[1..], v);
    }
  }

  lemma PlainPairReads(k: string, v: string)
    requires PlainKey(k) && PlainValue(v)
    ensures ReadLine(k + "=" + v) == Some(Pair(k, v))
  {
    hide Lower;
    hide Contains;
    var line := k + "=" + v;
    TrimFixed(line);
    TrimFixed(k);
    TrimFixed(v);
    KeyEndsAt(k, v);
    hide TrimSpace;
    assert line[..|k|] == k && line[|k| + 1..] == v;
  }

  lemma PlainHeaderReads(name: string)
    requires Trimmed(name)
    ensures ReadLine("[" + name + "]") == Some(Header(name))
  {
    var line := "[" + name + "]";
    TrimFixed(line);
    TrimFixed(name);
    hide TrimSpace;
    assert line[1..|line| - 1] == name;
  }

  function Assignment(k: string, v: string): string {
    k + "=" + v
  }

  function Heading(name: string): string {
    "[" + name + "]"
  }

  ghost predicate State(lines: seq<string>, cur: Profile, started: bool, out: seq<Profile>) {
    UpTo(Entries(lines), cur, started, out)
  }

  lemma StartState()
    ensures State([], Blank("DEFAULT"), false, []) && !Reported(Blank("DEFAULT"))
  {
    NothingRead();
  }

  lemma EndState(lines: seq<string>, cur: Profile, started: bool, out: seq<Profile>)
    requires State(lines, cur, started, out)
    ensures Parsed(lines) == if started && Reported(cur) then out + [cur] else out
  {
    Finished(lines, cur, started, out);
  }

  lemma ReadsHeading(lines: seq<string>, name: string, cur: Profile, started: bool, out: seq<Profile>)
    requires State(lines, cur, started, out) && Trimmed(name)
    ensures State(lines + [Heading(name)], Blank(name), true, if started && Reported(cur) then out + [cur] else out)
  {
    hide UpTo;
    EntriesStep(lines, Heading(name));
    PlainHeaderReads(name);
    AfterHeader(Entries(lines), name, cur, started, out);
  }

  lemma ReadsAssignment(lines: seq<string>, k: string, v: string, cur: Profile, started: bool, out: seq<Profile>)
    requires State(lines, cur, started, out) && PlainKey(k) && PlainValue(v)
    ensures State(lines + [Assignment(k, v)], Assigned(cur, k, v), true, out)
  {
    hide UpTo;
    hide Assigned;
    EntriesStep(lines, Assignment(k, v));
    PlainPairReads(k, v);
    AfterPair(Entries(lines), k, v, cur, started, out);
  }

  lemma LettersArePlain(k: string)
    requires k != "" && forall i :: 0 <= i < |k| ==> 'a' <= k[i] <= 'z' || k[i] == '_'
    ensures PlainKey(k)
  {
  }

  lemma PlainKeys()
    ensures PlainKey("user") && PlainKey("fingerprint") && PlainKey("tenancy") && PlainKey("region")
    ensures PlainKey("key_file")
  {
    hide PlainKey;
    LettersArePlain("user");
    LettersArePlain("fingerprint");
    LettersArePlain("tenancy");
    LettersArePlain("region");
    LettersArePlain("key_file");
  }

  predicate Plain(p: Profile) {
    && Trimmed(p.name) && Reported(p)
    && PlainValue(p.user) && PlainValue(p.fingerprint) && PlainValue(p.tenancy) && PlainValue(p.region)
    && PlainValue(p.keyFile)
    && Lower(p.fingerprint) == p.fingerprint && Lower(p.region) == p.region
  }

  function Written(p: Profile): seq<string> {
    [Heading(p.name),
     Assignment("user", p.user), Assignment("fingerprint", p.fingerprint), Assignment("tenancy", p.tenancy),
     Assignment("region", p.region), Assignment("key_file", p.keyFile)]
  }

  lemma WrittenState(p: Profile)
    requires Plain(p)
    ensures State(Written(p), p, true, [])
  {
    hide State;
    hide PlainValue;
    hide PlainKey;
    hide Assignment;
    hide Heading;
    hide Lower;
    hide Parsed;
    var text := Written(p);
    StartState();
    PlainKeys();
    ReadsHeading([], p.name, Blank("DEFAULT"), false, []);
    assert [] + [Heading(p.name)] == text[..1];
    ReadsAssignment(text[..1], "user", p.user, Blank(p.name), true, []);
    assert text[..1] + [Assignment("user", p.user)] == text[..2];
    var p2 := Blank(p.name).(user := p.user);
    ReadsAssignment(text[..2], "fingerprint", p.fingerprint, p2, true, []);
    assert text[..2] + [Assignment("fingerprint", p.fingerprint)] == text[..3];
    var p3 := p2.(fingerprint := p.fingerprint);
    ReadsAssignment(text[..3], "tenancy", p.tenancy, p3, true, []);
    assert text[..3] + [Assignment("tenancy", p.tenancy)] == text[..4];
    var p4 := p3.(tenancy := p.tenancy);
    ReadsAssignment(text[..4], "region", p.region, p4, true, []);
    assert text[..4] + [Assignment("region", p.region)] == text[..5];
    var p5 := p4.(region := p.region);
    ReadsAssignment(text[..5], "key_file", p.keyFile, p5, true, []);
    assert text[..5] + [Assignment("key_file", p.keyFile)] == text;
  }

  /** A config written section by section is read back profile by profile. */
  lemma WrittenReadsBack(p: Profile)
    requires Plain(p)
    ensures Parsed(Written(p)) == [p]
  {
    hide State;
    WrittenState(p);
    EndState(Written(p), p, true, []);
  }

  function AllWritten(profiles: seq<Profile>): seq<string> {
    if profiles == [] then [] else Written(profiles[0]) + AllWritten(profiles[1..])
  }

  lemma {:induction false} AllWrittenReadBack(profiles: seq<Profile>)
    requires forall p :: p in profiles ==> Plain(p)
    ensures Parsed(AllWritten(profiles)) == profiles
  {
    hide Parsed;
    hide Plain;
    if profiles == [] {
      NothingParsed();
    } else {
      var first, rest := profiles[0], profiles[1..];
      AllWrittenReadBack(rest);
      WrittenReadsBack(first);
      if rest == [] {
        assert Written(first) + AllWritten(rest) == Written(first);
      } else {
        FirstIsHeading(rest);
        SectionsDoNotBleed(Written(first), AllWritten(rest));
      }
    }
  }

  lemma NothingParsed()
    ensures Parsed([]) == []
  {
    StartState();
    EndState([], Blank("DEFAULT"), false, []);
  }

  lemma FirstIsHeading(profiles: seq<Profile>)
    requires profiles != [] && Plain(profiles[0])
    ensures AllWritten(profiles) != [] && ReadLine(AllWritten(profiles)[0]) == Some(Header(profiles[0].name))
  {
    hide ReadLine;
    PlainHeaderReads(profiles[0].name);
  }

  /** A header followed by a comment is not a header: its keys overwrite those of the section above. */
  lemma CommentedHeaderBleeds()
    ensures ReadLine("[B] # note") == None
    ensures Parsed(["[A]", "user=u"] + ["[B] # note"] + ["user=v"]) == [Blank("A").(user := "v")]
  {
    CommentedHeaderIsNoise();
    NoiseChangesNothing(["[A]", "user=u"], "[B] # note", ["user=v"]);
    LastUserWins();
  }

  /** A bracketed line opens a section exactly when the bracket closes it. */
  lemma BracketOpensSection(text: string)
    requires text != "" && Trimmed(text) && text[0] == '['
    ensures ReadLine(text).Some? && ReadLine(text).value.Header? <==> |text| >= 2 && text[|text| - 1] == ']'
    ensures ReadLine(text) == None <==> !IsHeader(text) && '=' !in text
  {
    TrimFixed(text);
    hide TrimSpace;
  }

  lemma CommentedHeaderIsNoise()
    ensures ReadLine("[B] # note") == None
  {
    hide ReadLine;
    BracketOpensSection("[B] # note");
  }

  lemma PlainUsers()
    ensures Trimmed("A") && PlainValue("u") && PlainValue("v")
    ensures Heading("A") == "[A]" && Assignment("user", "u") == "user=u" && Assignment("user", "v") == "user=v"
  {
  }

  lemma LastUserWins()
    ensures Parsed(["[A]", "user=u"] + ["user=v"]) == [Blank("A").(user := "v")]
  {
    hide State;
    hide PlainValue;
    hide PlainKey;
    hide Assignment;
    hide Heading;
    hide Parsed;
    var text := ["[A]", "user=u"];
    PlainUsers();
    PlainKeys();
    StartState();
    ReadsHeading([], "A", Blank("DEFAULT"), false, []);
    assert [] + ["[A]"] == text[..1];
    ReadsAssignment(text[..1], "user", "u", Blank("A"), true, []);
    assert text[..1] + ["user=u"] == text;
    ReadsAssignment(text, "user", "v", Blank("A").(user := "u"), true, []);
    EndState(text + ["user=v"], Blank("A").(user := "v"), true, []);
  }

  // ----- exactly when keys stay apart -----

  ghost predicate Separates(b: seq<string>) {
    forall a :: Parsed(a + b) == Parsed(a) + Parsed(b)
  }

  function Uniform(c: string): Profile {
    Profile("A", c, c, c, c, c)
  }

  lemma UniformIsPlain(c: char)
    requires 'a' <= c <= 'z'
    ensures Plain(Uniform([c]))
  {
  }

  lemma AgreeingReports(merged: Section, lead: Section, p: Profile, rest: seq<Profile>)
    requires ReportOne(merged) + rest == [p] + (ReportOne(lead) + rest)
    ensures ProfileOf(merged) == p
  {
    hide ProfileOf;
    assert |ReportOne(merged)| == 1 + |ReportOne(lead)|;
    assert (ReportOne(merged) + rest)[0] == p;
  }

  lemma WrittenFront(p: Profile)
    requires Plain(p)
    ensures var sections := Sections(Entries(Written(p))); ReportOf(sections[..|sections| - 1]) == []
  {
    hide Entries;
    hide Sections;
    hide ReportOf;
    hide ProfileOf;
    WrittenState(p);
  }

  lemma ReportBehind(x: seq<Section>, y: seq<Section>, p: Profile)
    requires x != [] && y != [] && ReportOf(x[..|x| - 1]) == []
    requires ReportOf(Stitched(x, y)) == [p] + ReportOf(y)
    ensures ProfileOf(Joined(x[|x| - 1], y[0])) == p
  {
    hide ReportOf;
    hide ReportOne;
    hide ProfileOf;
    hide Stitched;
    ReportStitched(x, y);
    var merged, rest := Joined(x[|x| - 1], y[0]), ReportOf(y[1..]);
    assert [] + ReportOne(merged) + rest == ReportOne(merged) + rest;
    AgreeingReports(merged, y[0], p, rest);
  }

  /** Behind a section with the same value everywhere, separation forces the lead to leave it alone. */
  lemma LeadLeavesUniform(b: seq<string>, c: char)
    requires 'a' <= c <= 'z' && Separates(b)
    ensures exists s :: ProfileOf(Joined(s, Lead(b))) == Uniform([c])
  {
    var p := Uniform([c]);
    var a := Written(p);
    UniformIsPlain(c);
    hide *;
    WrittenFront(p);
    WrittenReadsBack(p);
    ParsedConcat(a, b);
    SeparatesHere(a, b);
    ParsedIs(b);
    var x, y := Sections(Entries(a)), Sections(Entries(b));
    ReportBehind(x, y, p);
    LeadIs(b);
  }

  lemma ParsedIs(lines: seq<string>)
    ensures Parsed(lines) == ReportOf(Sections(Entries(lines)))
  {
  }

  lemma SeparatesHere(a: seq<string>, b: seq<string>)
    requires Separates(b)
    ensures Parsed(a + b) == Parsed(a) + Parsed(b)
  {
  }

  lemma LeadIs(b: seq<string>)
    ensures Lead(b) == Sections(Entries(b))[0]
  {
  }

  function FieldOf(p: Profile, key: string): string
    requires key in KNOWN_KEYS
  {
    if key == "tenancy" then p.tenancy else if key == "user" then p.user else if key == "fingerprint" then p.fingerprint
    else if key == "region" then p.region else p.keyFile
  }

  lemma AssignedKeyShows(s: Section, lead: Section, key: string)
    requires key in KNOWN_KEYS && Assigns(lead.body, key)
    ensures FieldOf(ProfileOf(Joined(s, lead)), key) == FieldOf(ProfileOf(lead), key)
  {
    hide Assigns;
    hide Lower;
    LastValueConcat(s.body, lead.body, key);
  }

  lemma UniformField(c: string, key: string)
    requires key in KNOWN_KEYS
    ensures FieldOf(Uniform(c), key) == c
  {
  }

  /** A text is parsed on its own behind every other text exactly when its lines before the first header
      assign none of the five keys. */
  lemma SeparatesExactly(b: seq<string>)
    ensures Separates(b) <==> Silent(Lead(b).body)
  {
    if Silent(Lead(b).body) {
      forall a ensures Parsed(a + b) == Parsed(a) + Parsed(b) {
        SilentLeadSeparates(a, b);
      }
    } else if Separates(b) {
      hide Lead;
      hide ProfileOf;
      hide FieldOf;
      hide Uniform;
      var key :| key in KNOWN_KEYS && Assigns(Lead(b).body, key);
      LeadLeavesUniform(b, 'x');
      LeadLeavesUniform(b, 'y');
      var s :| ProfileOf(Joined(s, Lead(b))) == Uniform("x");
      var t :| ProfileOf(Joined(t, Lead(b))) == Uniform("y");
      AssignedKeyShows(s, Lead(b), key);
      AssignedKeyShows(t, Lead(b), key);
      UniformField("x", key);
      UniformField("y", key);
      assert false;
    }
  }
}
