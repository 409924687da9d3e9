/** Tool names for capabilities (src/grantora/openapi/tools.py) and the three surfaces that use them. */
module ToolNames {
  import opened Prelude
  import opened Text

  const MAX_TOOL_NAME_LENGTH := 128
  const MAX_ID_LENGTH := 128
  const HASH_STEP := 8
  const DIGEST_LENGTH := 64

  predicate IsHex(c: char) {
    '0' <= c <= '9' || 'a' <= c <= 'f'
  }

  /** A SHA-256 hex digest; the hash itself is the uninterpreted parameter `sha` below. */
  type Digest = s: string | |s| == DIGEST_LENGTH && forall i :: 0 <= i < |s| ==> IsHex(s[i])
    witness seq(64, _ => '0')

  // ----- Base names -----

  predicate IsDigit(c: char) { '0' <= c <= '9' }
  predicate IsUpper(c: char) { 'A' <= c <= 'Z' }
  predicate IsLower(c: char) { 'a' <= c <= 'z' }
  predicate IsAlnum(c: char) { IsDigit(c) || IsUpper(c) || IsLower(c) }
  predicate IsUnderscore(c: char) { c == '_' }
  predicate IsSeparator(c: char) { !IsAlnum(c) }

  /** re.sub(r"[^0-9A-Za-z]+", "_", s) */
  function Collapse(s: string): string
    decreases |s|
  {
    if s == "" then ""
    else if IsAlnum(s[0]) then [s[0]] + Collapse(s[1..])
    else
      DropLeftShrinks(s[1..]);
      "_" + Collapse(DropLeft(s[1..], IsSeparator))
  }

  lemma {:induction false} DropLeftShrinks(s: string)
    ensures |DropLeft(s, IsSeparator)| <= |s|
    ensures DropLeft(s, IsSeparator) != "" ==> IsAlnum(DropLeft(s, IsSeparator)[0])
  {
    var n := DropLeftIsSuffix(s, IsSeparator);
  }

  function LowerChar(c: char): char {
    if IsUpper(c) then (c as int - 'A' as int + 'a' as int) as char else c
  }

  function Lower(s: string): string {
    seq(|s|, i requires 0 <= i < |s| => LowerChar(s[i]))
  }

  function Normalized(id: string): string {
    Lower(Strip(Collapse(id), IsUnderscore))
  }

  /** capability_tool_name */
  function BaseName(id: string): string {
    var normalized := Normalized(id);
    if normalized == "" then "capability"
    else if IsDigit(normalized[0]) then "capability_" + normalized
    else normalized
  }

  /** Single underscores between runs of letters and digits; none needs to be present. */
  ghost predicate Spaced(s: string) {
    && (forall i :: 0 <= i < |s| ==> IsAlnum(s[i]) || s[i] == '_')
    && (forall i :: 0 < i < |s| ==> s[i - 1] != '_' || s[i] != '_')
  }

  ghost predicate Tidy(s: string) {
    && Spaced(s)
    && (forall i :: 0 <= i < |s| ==> !IsUpper(s[i]))
    && (s != "" ==> s[0] != '_' && s[|s| - 1] != '_')
  }

  /** MCP_TOOL_NAME_PATTERN, ^[A-Za-z0-9][A-Za-z0-9_]*$ */
  predicate FitsPattern(name: string) {
    && name != "" && IsAlnum(name[0])
    && forall i :: 0 <= i < |name| ==> IsAlnum(name[i]) || name[i] == '_'
  }

  lemma {:induction false} CollapseIsSpaced(s: string)
    ensures Spaced(Collapse(s))
    ensures |Collapse(s)| <= |s|
    ensures s != "" && IsAlnum(s[0]) ==> Collapse(s) != "" && IsAlnum(Collapse(s)[0])
    decreases |s|
  {
    if s == "" {
    } else if IsAlnum(s[0]) {
      CollapseIsSpaced(s[1..]);
    } else {
      DropLeftShrinks(s[1..]);
      CollapseIsSpaced(DropLeft(s[1..], IsSeparator));
    }
  }

  lemma {:induction false} CollapseOfSpaced(s: string)
    requires Spaced(s)
    ensures Collapse(s) == s
    decreases |s|
  {
    if s != "" {
      assert Spaced(s[1..]) by {
        forall i | 0 < i < |s[1..]| ensures s[1..][i - 1] != '_' || s[1..][i] != '_' {
          assert s[1..][i - 1] == s[i] && s[1..][i] == s[i + 1];
        }
      }
      CollapseOfSpaced(s[1..]);
      assert s == [s[0]] + s[1..];
      if !IsAlnum(s[0]) {
        assert s[1..] == "" || IsAlnum(s[1..][0]);
        assert DropLeft(s[1..], IsSeparator) == s[1..];
      }
    }
  }

  lemma StripIsTidy(s: string)
    requires Spaced(s)
    ensures Tidy(Lower(Strip(s, IsUnderscore)))
    ensures |Lower(Strip(s, IsUnderscore))| <= |s|
  {
    var right := DropRight(s, IsUnderscore);
    var n := DropLeftIsSuffix(right, IsUnderscore);
    var t := Strip(s, IsUnderscore);
    assert t == right[n..];
    forall i | 0 <= i < |t| ensures t[i] == s[n + i] {
    }
    var low := Lower(t);
    forall i | 0 < i < |low| ensures low[i - 1] != '_' || low[i] != '_' {
      assert low[i - 1] == LowerChar(s[n + i - 1]) && low[i] == LowerChar(s[n + i]);
      assert s[n + i - 1] != '_' || s[n + i] != '_';
    }
  }

  lemma PrefixedIsTidy(name: string)
    requires Tidy(name) && name != ""
    ensures Tidy("capability_" + name)
  {
    var b := "capability_" + name;
    forall i | 0 < i < |b| ensures b[i - 1] != '_' || b[i] != '_' {
      if i > 11 { assert b[i - 1] == name[i - 12] && b[i] == name[i - 11]; }
    }
  }

  lemma BaseNameShape(id: string)
    ensures Tidy(BaseName(id)) && BaseName(id) != "" && IsLower(BaseName(id)[0])
    ensures FitsPattern(BaseName(id))
    ensures |BaseName(id)| <= |id| + 11
  {
    hide Collapse, Strip, Lower;
    CollapseIsSpaced(id);
    StripIsTidy(Collapse(id));
    var n := Normalized(id);
    if n != "" && IsDigit(n[0]) { PrefixedIsTidy(n); }
  }

  /** A tidy name that starts with a letter is its own base name. */
  lemma BaseNameOfTidy(name: string)
    requires Tidy(name) && name != "" && !IsDigit(name[0])
    ensures BaseName(name) == name
  {
    CollapseOfSpaced(name);
    assert DropRight(name, IsUnderscore) == name;
    assert DropLeft(name, IsUnderscore) == name;
    assert Lower(name) == name;
  }

  /** capability_tool_name is idempotent. */
  lemma BaseNameIdempotent(id: string)
    ensures BaseName(BaseName(id)) == BaseName(id)
  {
    BaseNameShape(id);
    BaseNameOfTidy(BaseName(id));
  }

  // ----- Base names of valid ids -----

  /** CAPABILITY_ID_PATTERN, ^[a-z0-9][a-z0-9]*(?:[._-][a-z0-9]+)*$: separators stand alone and inside. */
  predicate ValidId(id: string) {
    && 0 < |id| <= MAX_ID_LENGTH
    && (forall i :: 0 <= i < |id| ==> IsLower(id[i]) || IsDigit(id[i]) || id[i] in "._-")
    && (forall i :: 0 < i < |id| ==> IsAlnum(id[i - 1]) || IsAlnum(id[i]))
    && IsAlnum(id[0]) && IsAlnum(id[|id| - 1])
  }

  /** Every separator as an underscore. */
  function Flat(id: string): string {
    seq(|id|, i requires 0 <= i < |id| => if IsAlnum(id[i]) then id[i] else '_')
  }

  lemma {:induction false} CollapseKeepsLoneSeparators(s: string)
    requires forall i :: 0 < i < |s| ==> IsAlnum(s[i - 1]) || IsAlnum(s[i])
    ensures Collapse(s) == Flat(s)
  {
    if s != "" {
      var rest := s[1..];
      forall i | 0 < i < |rest| ensures IsAlnum(rest[i - 1]) || IsAlnum(rest[i]) {
        assert rest[i - 1] == s[i] && rest[i] == s[i + 1];
      }
      CollapseKeepsLoneSeparators(rest);
      assert Flat(s) == Flat(s)[..1] + Flat(rest);
      if !IsAlnum(s[0]) {
        assert rest == "" || IsAlnum(rest[0]);
        assert DropLeft(rest, IsSeparator) == rest;
      }
    }
  }

  /** The base name of a valid id is the id with underscores, behind "capability_" if it starts with a digit. */
  lemma BaseNameOfValidId(id: string)
    requires ValidId(id)
    ensures BaseName(id) == if IsDigit(id[0]) then "capability_" + Flat(id) else Flat(id)
  {
    CollapseKeepsLoneSeparators(id);
    var flat := Flat(id);
    assert flat[0] == id[0] && flat[|flat| - 1] == id[|id| - 1];
    assert DropRight(flat, IsUnderscore) == flat && DropLeft(flat, IsUnderscore) == flat;
    assert Lower(flat) == flat;
  }

  // ----- Base names of any ids -----

  ghost predicate OnlySeparators(s: string) {
    forall i :: 0 <= i < |s| ==> IsSeparator(s[i])
  }

  lemma {:induction false} DropsSeparators(s: string, rest: string)
    requires OnlySeparators(s)
    ensures DropLeft(s + rest, IsSeparator) == DropLeft(rest, IsSeparator)
  {
    if s == "" {
      assert s + rest == rest;
    } else {
      assert (s + rest)[1..] == s[1..] + rest;
      DropsSeparators(s[1..], rest);
    }
  }

  lemma CollapseHead(c: char, rest: string)
    ensures Collapse([c] + rest)
      == if IsAlnum(c) then [c] + Collapse(rest) else "_" + Collapse(DropLeft(rest, IsSeparator))
  {
    assert ([c] + rest)[1..] == rest;
  }

  lemma StartsWithAlnum(s: string)
    requires s != "" && IsAlnum(s[0])
    ensures DropLeft(s, IsSeparator) == s
  {
  }

  lemma {:induction false} CollapseIgnoresRuns(front: string, run: string, back: string)
    requires run != "" && OnlySeparators(run)
    ensures Collapse(front + run + back) == Collapse(front + "_" + back)
    decreases |front|, 1
  {
    hide Collapse, DropLeft;
    if front == "" {
      assert front + run + back == [run[0]] + (run[1..] + back) && front + "_" + back == ['_'] + back;
      CollapseHead(run[0], run[1..] + back);
      CollapseHead('_', back);
      DropsSeparators(run[1..], back);
    } else {
      var rest := front[1..];
      assert front + run + back == [front[0]] + (rest + run + back);
      assert front + "_" + back == [front[0]] + (rest + "_" + back);
      CollapseHead(front[0], rest + run + back);
      CollapseHead(front[0], rest + "_" + back);
      if IsAlnum(front[0]) { CollapseIgnoresRuns(rest, run, back); } else { DropIgnoresRuns(rest, run, back); }
    }
  }

  lemma DropIgnoresRuns(rest: string, run: string, back: string)
    requires run != "" && OnlySeparators(run)
    ensures Collapse(DropLeft(rest + run + back, IsSeparator)) == Collapse(DropLeft(rest + "_" + back, IsSeparator))
    decreases |rest|, 2
  {
    hide Collapse, DropLeft;
    var n := DropLeftIsSuffix(rest, IsSeparator);
    var kept := rest[n..];
    assert rest + run + back == rest[..n] + (kept + run + back);
    assert rest + "_" + back == rest[..n] + (kept + "_" + back);
    DropsSeparators(rest[..n], kept + run + back);
    DropsSeparators(rest[..n], kept + "_" + back);
    if kept == "" {
      assert kept + run + back == run + back && kept + "_" + back == "_" + back;
      DropsSeparators(run, back);
      DropsSeparators("_", back);
    } else {
      StartsWithAlnum(kept + run + back);
      StartsWithAlnum(kept + "_" + back);
      CollapseIgnoresRuns(kept, run, back);
    }
  }

  /** A run of characters other than letters and digits counts as one underscore, whatever they are and
      however many. */
  lemma BaseNameIgnoresRuns(front: string, run: string, back: string)
    requires run != "" && OnlySeparators(run)
    ensures BaseName(front + run + back) == BaseName(front + "_" + back)
  {
    hide Collapse;
    CollapseIgnoresRuns(front, run, back);
  }

  /** An id without any letter or digit is called "capability". */
  lemma BaseNameOfSeparators(id: string)
    requires OnlySeparators(id)
    ensures BaseName(id) == "capability"
  {
    if id != "" {
      DropsSeparators(id[1..], "");
      assert id[1..] + "" == id[1..];
      assert Collapse(id) == "_";
      assert DropRight("_", IsUnderscore) == "";
    }
  }

  predicate LongDigitLed(id: string) {
    |id| > MAX_TOOL_NAME_LENGTH - 11 && IsDigit(id[0])
  }

  /** A valid id gets a base name over the limit exactly when it starts with a digit and is longer than 117. */
  lemma BaseNameOverflowsIff(id: string)
    requires ValidId(id)
    ensures |BaseName(id)| > MAX_TOOL_NAME_LENGTH <==> LongDigitLed(id)
  {
    hide BaseName;
    BaseNameOfValidId(id);
  }

  /** Such an id, separators and all. */
  lemma LongDigitLedIdOverflows()
    ensures exists id :: ValidId(id) && |BaseName(id)| > MAX_TOOL_NAME_LENGTH
  {
    hide BaseName;
    var id := "1." + seq(116, _ => 'x');
    assert |id| == 118 && id[0] == '1' && id[1] == '.' && forall i :: 2 <= i < 118 ==> id[i] == 'x';
    assert ValidId(id);
    BaseNameOverflowsIff(id);
  }

  // ----- Hashed names -----

  /** Rounds 1 to 8 try 8, 16, ..., 64 hex digits. */
  const ROUNDS := 8

  function Trimmed(base: string, hashLength: nat): string
    requires hashLength <= DIGEST_LENGTH
  {
    var maxBase := MAX_TOOL_NAME_LENGTH - hashLength - 1;
    var cut := DropRight(if |base| <= maxBase then base else base[..maxBase], IsUnderscore);
    if cut == "" then "capability" else cut
  }

  function Candidate(base: string, digest: Digest, round: nat): string
    requires round <= ROUNDS
  {
    Trimmed(base, HASH_STEP * round) + "_" + digest[..HASH_STEP * round]
  }

  /** The first candidate not yet used, from the given round on. */
  function FirstFree(base: string, digest: Digest, used: set<string>, round: nat): Option<string>
    decreases ROUNDS + 1 - round
  {
    if round > ROUNDS then None
    else if Candidate(base, digest, round) !in used then Some(Candidate(base, digest, round))
    else FirstFree(base, digest, used, round + 1)
  }

  /** _hashed_tool_name; None is its ValueError. `round` counts the iterations: never more than eight. */
  method HashedToolName(base: string, digest: Digest, used: set<string>) returns (name: Option<string>)
    ensures name == FirstFree(base, digest, used, 1)
  {
    hide Trimmed;
    var hashLength := HASH_STEP;
    ghost var round := 1;
    while hashLength <= DIGEST_LENGTH
      invariant 1 <= round <= ROUNDS + 1 && hashLength == HASH_STEP * round
      invariant FirstFree(base, digest, used, 1) == FirstFree(base, digest, used, round)
    {
      var toolName := Trimmed(base, hashLength) + "_" + digest[..hashLength];
      if toolName !in used {
        return Some(toolName);
      }
      hashLength := hashLength + HASH_STEP;
      round := round + 1;
    }
    return None;
  }

  lemma CandidateShape(base: string, digest: Digest, round: nat)
    requires round <= ROUNDS
    ensures var c := Candidate(base, digest, round);
      && HASH_STEP * round + 2 <= |c| <= MAX_TOOL_NAME_LENGTH
      && c[|c| - HASH_STEP * round - 1] == '_'
      && (forall i :: |c| - HASH_STEP * round <= i < |c| ==> IsHex(c[i]))
      && (FitsPattern(base) ==> FitsPattern(c))
  {
  }

  /** What precedes the hash in a candidate for a base name: the base name if it fits in 128 characters with the
      hash and an underscore, otherwise as much of it as does, less an underscore at the cut. */
  function Front(base: string, round: nat): string
    requires round <= ROUNDS
  {
    var room := 127 - 8 * round;
    if |base| <= room then base else if base[room - 1] == '_' then base[..room - 1] else base[..room]
  }

  lemma CandidateOfBaseName(id: string, digest: Digest, round: nat)
    requires round <= ROUNDS
    ensures Candidate(BaseName(id), digest, round) == Front(BaseName(id), round) + "_" + digest[..8 * round]
  {
    hide BaseName, Tidy, FitsPattern, DropRight;
    BaseNameShape(id);
    var base, room := BaseName(id), 127 - 8 * round;
    var cut := if |base| <= room then base else base[..room];
    LoneUnderscores(base);
    CutLosesOneUnderscore(cut);
    if cut[|cut| - 1] == '_' { assert cut[..room - 1] == base[..room - 1]; }
  }

  lemma LoneUnderscores(base: string)
    requires Tidy(base)
    ensures forall i :: 0 < i < |base| ==> base[i - 1] != '_' || base[i] != '_'
    ensures base != "" ==> base[0] != '_' && base[|base| - 1] != '_'
  {
  }

  lemma CutLosesOneUnderscore(cut: string)
    requires cut != "" && cut[0] != '_' && (|cut| > 1 ==> cut[|cut| - 2] != '_' || cut[|cut| - 1] != '_')
    ensures DropRight(cut, IsUnderscore) == if cut[|cut| - 1] == '_' then cut[..|cut| - 1] else cut
  {
  }

  /** The rounds try pairwise different names: the suffix is what follows the last underscore. */
  lemma CandidatesDiffer(base: string, digest: Digest, early: nat, late: nat)
    requires early < late <= ROUNDS
    ensures Candidate(base, digest, early) != Candidate(base, digest, late)
  {
    var a, b := Candidate(base, digest, early), Candidate(base, digest, late);
    CandidateShape(base, digest, early);
    CandidateShape(base, digest, late);
    if |a| == |b| {
      var p := |b| - HASH_STEP * early - 1;
      assert a[p] == '_' && IsHex(b[p]);
    }
  }

  /** Every round before k found its candidate taken. */
  ghost predicate IsFirstFree(base: string, digest: Digest, used: set<string>, round: nat, k: nat)
    requires k <= ROUNDS
  {
    forall j :: round <= j < k ==> Candidate(base, digest, j) in used
  }

  lemma {:induction false} FirstFreeCorrect(base: string, digest: Digest, used: set<string>, round: nat)
    ensures var r := FirstFree(base, digest, used, round);
      && (r.None? ==> forall k :: round <= k <= ROUNDS ==> Candidate(base, digest, k) in used)
      && (r.Some? ==> r.value !in used && exists k :: (
            round <= k <= ROUNDS && IsFirstFree(base, digest, used, round, k) && r.value == Candidate(base, digest, k)))
    decreases ROUNDS + 1 - round
  {
    hide Candidate;
    if round <= ROUNDS {
      if Candidate(base, digest, round) in used {
        FirstFreeCorrect(base, digest, used, round + 1);
      } else {
        assert IsFirstFree(base, digest, used, round, round);
      }
    }
  }

  /** The rounds' names as one sequence. */
  function Tried(base: string, digest: Digest): (tried: seq<string>)
    ensures |tried| == ROUNDS && forall i :: 0 <= i < ROUNDS ==> tried[i] == Candidate(base, digest, i + 1)
  {
    seq(ROUNDS, k requires 0 <= k < ROUNDS => Candidate(base, digest, k + 1))
  }

  lemma TriedAreDistinct(base: string, digest: Digest)
    ensures |Elems(Tried(base, digest))| == ROUNDS
  {
    var tried := Tried(base, digest);
    forall i, j | 0 <= i < j < |tried| ensures tried[i] != tried[j] {
      CandidatesDiffer(base, digest, i + 1, j + 1);
    }
    NoDupCardinality(tried);
  }

  /** Pigeonhole: the loop can only run out of candidates when at least eight names are taken. */
  lemma HashedNameFailsOnlyWhenCrowded(base: string, digest: Digest, used: set<string>)
    requires FirstFree(base, digest, used, 1).None?
    ensures |used| >= 8
  {
    FirstFreeCorrect(base, digest, used, 1);
    TriedAreDistinct(base, digest);
    SubsetCardinality(Elems(Tried(base, digest)), used);
  }
}
