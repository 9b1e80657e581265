/**
 Comments behind a value in an OCI config: a value ends before the first blank and hash, and a section
 whose assignments carry comments reads back like one without them, exactly when no value is empty.
 */
module ConfigComments {
  import opened Prelude
  import opened OciConfig

  // ----- cutting a comment off -----

  lemma NoHashWithin(a: string, c: string, i: nat)
    requires !Contains(a, " #") && i < |a|
    ensures !OccursAt(a + " #" + c, " #", i)
  {
    var text := a + " #" + c;
    if i + 2 <= |a| {
      assert text[i..i + 2] == a[i..i + 2];
      assert !OccursAt(a, " #", i);
    } else {
      assert text[i + 1] == ' ';
    }
  }

  /** The text before the first blank and hash. */
  lemma {:induction false} BeforeFirstHash(a: string, c: string)
    requires !Contains(a, " #")
    ensures BeforeHash(a + " #" + c) == a
  {
    var text := a + " #" + c;
    if a == "" {
      assert text[0..2] == " #";
    } else {
      NoHashWithin(a, c, 0);
      assert text[1..] == a[1..] + " #" + c;
      RestHasNoHash(a);
      BeforeFirstHash(a[1..], c);
    }
  }

  lemma RestHasNoHash(a: string)
    requires a != "" && !Contains(a, " #")
    ensures !Contains(a[1..], " #")
  {
    forall i | 0 <= i <= |a[1..]| && OccursAt(a[1..], " #", i) ensures OccursAt(a, " #", i + 1) {
      assert a[i + 1..i + 3] == a[1..][i..i + 2];
    }
  }

  /** A value is the trimmed text before the first blank and hash, or all of it when there is none. */
  lemma CutExactly(a: string, c: string)
    requires !Contains(a, " #")
    ensures CutValue(a + " #" + c) == TrimSpace(a) && CutValue(a) == a
  {
    var text := a + " #" + c;
    assert OccursAt(text, " #", |a|);
    BeforeFirstHash(a, c);
  }

  // ----- assignments in general -----

  /** A key as it may be typed. */
  predicate TypedKey(k: string) {
    k != "" && Trimmed(k) && '=' !in k && k[0] !in "#;["
  }

  /** An assignment may be indented, its key may be in capitals and followed by blanks, and whatever is behind
      its first equals sign is trimmed before a comment is cut off. */
  lemma AssignmentReads(before: string, k: string, between: string, text: string)
    requires Blanks(before) && Blanks(between) && TypedKey(k)
    ensures ReadLine(before + k + between + "=" + text) == Some(Pair(Lower(k), CutValue(TrimSpace(text))))
  {
    var shown := TrimmedLine(before, k, between, text);
    TrimBetweenBlanks("", k, between);
    assert "" + k + between == k + between;
    KeyEndsAt(k + between, shown);
    var line := k + between + "=" + shown;
    hide TrimSpace;
    hide CutValue;
    hide Lower;
    hide KeyEnd;
    hide Blanks;
    assert line[0] == k[0];
    assert line[..|k + between|] == k + between;
    assert line[|k + between| + 1..] == shown;
  }

  /** What trimming leaves of the line, and of the part behind the equals sign. */
  lemma TrimmedLine(before: string, k: string, between: string, text: string) returns (shown: string)
    requires Blanks(before) && Blanks(between) && TypedKey(k)
    ensures TrimSpace(before + k + between + "=" + text) == k + between + "=" + shown
    ensures TrimSpace(shown) == TrimSpace(text) && '=' !in k + between
  {
    var front, value, back := SplitTrimmed(text);
    hide TrimSpace;
    var rest;
    if value == "" {
      shown, rest := "", text;
      BlanksTrim(shown);
    } else {
      shown, rest := front + value, back;
      TrimBetweenBlanks(front, value, "");
      assert front + value + "" == shown;
    }
    var line := k + between + "=" + shown;
    assert line[|line| - 1] == if shown == "" then '=' else shown[|shown| - 1];
    assert before + k + between + "=" + text == before + line + rest;
    TrimBetweenBlanks(before, line, rest);
  }

  lemma SplitTrimmed(text: string) returns (front: string, value: string, back: string)
    ensures text == front + value + back && value == TrimSpace(text) && Trimmed(value)
    ensures Blanks(front) && Blanks(back) && (value == "" ==> Blanks(text))
  {
    front, back := TrimSpaceExactly(text);
    value := TrimSpace(text);
  }

  /** With a comment behind it the value is the trimmed text in front of the comment, provided there is any;
      otherwise the comment itself becomes the value. */
  lemma CommentedReads(before: string, k: string, between: string, text: string, note: string)
    requires Blanks(before) && Blanks(between) && TypedKey(k) && !Contains(text, " #")
    ensures var entry := ReadLine(before + k + between + "=" + (text + " #" + note));
            && entry.Some? && entry.value.Pair? && entry.value.key == Lower(k)
            && (TrimSpace(text) != "" ==> entry.value.value == TrimSpace(text))
            && (TrimSpace(text) == "" ==> entry.value.value != "" && entry.value.value[0] == '#')
  {
    AssignmentReads(before, k, between, text + " #" + note);
    CommentedValue(text, note);
    hide ReadLine;
  }

  lemma CommentedValue(text: string, note: string)
    requires !Contains(text, " #")
    ensures var value := CutValue(TrimSpace(text + " #" + note));
            && (TrimSpace(text) != "" ==> value == TrimSpace(text))
            && (TrimSpace(text) == "" ==> value != "" && value[0] == '#')
  {
    var front, value, back := SplitTrimmed(text);
    var kept, end := NoteEnds(note);
    hide TrimSpace;
    hide CutValue;
    hide Contains;
    if value == "" {
      TrimBetweenBlanks(text + " ", "#" + kept, end);
      assert text + " #" + note == text + " " + ("#" + kept) + end;
      HashStays(kept);
    } else {
      var shown := value + back;
      assert text + " #" + note == front + (shown + " #" + kept) + end;
      assert (shown + " #" + kept)[0] == value[0];
      TrimBetweenBlanks(front, shown + " #" + kept, end);
      assert text == front + shown;
      SuffixHasNoHash(front, shown);
      CutExactly(shown, kept);
      TrimBetweenBlanks("", value, back);
      assert "" + value + back == shown;
    }
  }

  lemma NoteEnds(note: string) returns (kept: string, end: string)
    ensures note == kept + end && Blanks(end) && (kept == "" || !IsSpace(kept[|kept| - 1]))
  {
    end := TrimRightExactly(note);
    kept := TrimRight(note);
  }

  lemma {:induction false} SuffixHasNoHash(front: string, rest: string)
    requires !Contains(front + rest, " #")
    ensures !Contains(rest, " #")
  {
    if front == "" {
      assert front + rest == rest;
    } else {
      RestHasNoHash(front + rest);
      assert (front + rest)[1..] == front[1..] + rest;
      SuffixHasNoHash(front[1..], rest);
    }
  }

  /** A value that starts with a hash keeps it. */
  lemma HashStays(kept: string)
    requires kept == "" || !IsSpace(kept[|kept| - 1])
    ensures var value := CutValue("#" + kept); value != "" && value[0] == '#'
  {
    var text := "#" + kept;
    if Contains(text, " #") {
      if |text| >= 2 {
        assert text[0..2][0] == '#';
      }
      var cut := BeforeHash(text);
      assert cut == ['#'] + BeforeHash(text[1..]);
      var end := TrimRightExactly(cut);
      assert TrimLeft(cut) == cut;
    }
  }

  /** So a comment behind a plain value is dropped exactly when there is a value. */
  lemma CommentIsDroppedExactly(k: string, v: string, note: string)
    requires PlainKey(k) && PlainValue(v)
    ensures ReadLine(k + "=" + v + " #" + note) == Some(Pair(k, v)) <==> v != ""
  {
    hide ReadLine;
    hide Contains;
    TrimFixed(v);
    hide TrimSpace;
    CommentedReads("", k, "", v, note);
    assert "" + k + "" + "=" + (v + " #" + note) == k + "=" + v + " #" + note;
    hide Lower;
  }

  /** Blank lines and lines that start, indented or not, with a hash or a semicolon say nothing. */
  lemma NoiseReads(before: string, text: string)
    requires Blanks(before) && (text == "" || text[0] == '#' || text[0] == ';')
    ensures ReadLine(before + text) == None
  {
    if text == "" {
      BlanksTrim(before);
      assert before + text == before;
    } else {
      var kept, end := NoteEnds(text);
      assert kept != "" && kept[0] == text[0];
      TrimBetweenBlanks(before, kept, end);
      assert before + text == before + kept + end;
    }
    hide TrimSpace;
    hide Contains;
  }

  /** A header's name is what stands between its brackets, trimmed; the line may be indented. */
  lemma HeaderReads(before: string, left: string, name: string, right: string, after: string)
    requires Blanks(before) && Blanks(left) && Blanks(right) && Blanks(after) && Trimmed(name)
    ensures ReadLine(before + "[" + left + name + right + "]" + after) == Some(Header(name))
  {
    var inner := left + name + right;
    TrimBetweenBlanks(left, name, right);
    BracketsTrimmed(before, inner, after);
    hide TrimSpace;
    hide Blanks;
    hide Trimmed;
    hide Contains;
    var line := "[" + inner + "]";
    assert before + "[" + left + name + right + "]" + after == before + "[" + inner + "]" + after;
    assert line[1..|line| - 1] == inner;
  }

  lemma BracketsTrimmed(before: string, inner: string, after: string)
    requires Blanks(before) && Blanks(after)
    ensures TrimSpace(before + "[" + inner + "]" + after) == "[" + inner + "]"
  {
    var line := "[" + inner + "]";
    assert line[0] == '[' && line[|line| - 1] == ']';
    TrimBetweenBlanks(before, line, after);
    assert before + line + after == before + "[" + inner + "]" + after;
  }

  // ----- a commented section -----

  /** The comments behind the five assignments of a section. */
  datatype Notes = Notes(user: string, fingerprint: string, tenancy: string, region: string, keyFile: string)

  function Commented(k: string, v: string, note: string): string {
    k + "=" + v + " #" + note
  }

  function WrittenWithNotes(p: Profile, notes: Notes): seq<string> {
    [Heading(p.name),
     Commented("user", p.user, notes.user), Commented("fingerprint", p.fingerprint, notes.fingerprint),
     Commented("tenancy", p.tenancy, notes.tenancy), Commented("region", p.region, notes.region),
     Commented("key_file", p.keyFile, notes.keyFile)]
  }

  /** What is read is the value, or, where there is none, something else. */
  ghost predicate ReadAs(v: string, seen: string) {
    if v != "" then seen == v else seen != ""
  }

  lemma ReadsCommented(lines: seq<string>, k: string, v: string, note: string, cur: Profile, started: bool,
                       out: seq<Profile>)
    returns (seen: string)
    requires OciConfig.State(lines, cur, started, out) && PlainKey(k) && PlainValue(v)
    ensures OciConfig.State(lines + [Commented(k, v, note)], Assigned(cur, k, seen), true, out) && ReadAs(v, seen)
  {
    var text := Commented(k, v, note);
    seen := SeenBehind(k, v, note);
    hide ReadLine;
    hide UpTo;
    hide Assigned;
    EntriesStep(lines, text);
    AfterPair(Entries(lines), k, seen, cur, started, out);
  }

  lemma SeenBehind(k: string, v: string, note: string) returns (seen: string)
    requires PlainKey(k) && PlainValue(v)
    ensures ReadLine(Commented(k, v, note)) == Some(Pair(k, seen)) && ReadAs(v, seen)
  {
    hide ReadLine;
    hide Contains;
    TrimFixed(v);
    hide TrimSpace;
    CommentedReads("", k, "", v, note);
    assert "" + k + "" + "=" + (v + " #" + note) == k + "=" + v + " #" + note;
    hide Lower;
    seen := ReadLine(Commented(k, v, note)).value.value;
  }

  lemma LowerSeen(v: string, seen: string)
    requires ReadAs(v, seen) && Lower(v) == v
    ensures ReadAs(v, Lower(seen))
  {
  }

  lemma WithNotesState(p: Profile, notes: Notes) returns (q: Profile)
    requires Plain(p)
    ensures OciConfig.State(WrittenWithNotes(p, notes), q, true, []) && q.name == p.name
    ensures ReadAs(p.user, q.user) && ReadAs(p.fingerprint, q.fingerprint) && ReadAs(p.tenancy, q.tenancy)
    ensures ReadAs(p.region, q.region) && ReadAs(p.keyFile, q.keyFile)
  {
    hide OciConfig.State;
    hide PlainValue;
    hide PlainKey;
    hide Commented;
    hide Heading;
    hide Lower;
    hide ReadAs;
    hide Reported;
    var text := WrittenWithNotes(p, notes);
    StartState();
    PlainKeys();
    ReadsHeading([], p.name, Blank("DEFAULT"), false, []);
    assert [] + [Heading(p.name)] == text[..1];
    var user := ReadsCommented(text[..1], "user", p.user, notes.user, Blank(p.name), true, []);
    assert text[..1] + [text[1]] == text[..2];
    q := Blank(p.name).(user := user);
    var fingerprint := ReadsCommented(text[..2], "fingerprint", p.fingerprint, notes.fingerprint, q, true, []);
    assert text[..2] + [text[2]] == text[..3];
    LowerSeen(p.fingerprint, fingerprint);
    q := q.(fingerprint := Lower(fingerprint));
    var tenancy := ReadsCommented(text[..3], "tenancy", p.tenancy, notes.tenancy, q, true, []);
    assert text[..3] + [text[3]] == text[..4];
    q := q.(tenancy := tenancy);
    var region := ReadsCommented(text[..4], "region", p.region, notes.region, q, true, []);
    assert text[..4] + [text[4]] == text[..5];
    LowerSeen(p.region, region);
    q := q.(region := Lower(region));
    var keyFile := ReadsCommented(text[..5], "key_file", p.keyFile, notes.keyFile, q, true, []);
    assert text[..5] + [text[5]] == text;
    q := q.(keyFile := keyFile);
  }

  /** A section whose assignments all carry a comment reads back as the profile it was written from exactly when
      none of its five values is empty: behind an empty value the comment is taken for the value. */
  lemma CommentedSectionReadsBackExactly(p: Profile, notes: Notes)
    requires Plain(p)
    ensures Parsed(WrittenWithNotes(p, notes)) == [p] <==>
              p.user != "" && p.fingerprint != "" && p.tenancy != "" && p.region != "" && p.keyFile != ""
  {
    var q := WithNotesState(p, notes);
    hide OciConfig.State;
    hide WrittenWithNotes;
    hide Parsed;
    hide PlainValue;
    hide Lower;
    EndState(WrittenWithNotes(p, notes), q, true, []);
    assert Reported(q) && [] + [q] == [q] && [q][0] == q && [p][0] == p;
  }
}
