/** capability_tool_name_map (src/grantora/openapi/tools.py): one name per capability id. */
module NameMap {
  import opened Prelude
  import opened Text
  import opened Tables
  import opened ToolNames

  function Ids(capabilities: seq<Capability>): (ids: seq<string>)
    ensures |ids| == |capabilities|
  {
    seq(|capabilities|, i requires 0 <= i < |capabilities| => capabilities[i].id)
  }

  /** Base names shared by two different ids. */
  function Duplicated(ids: seq<string>): set<string> {
    set i, j | 0 <= i < |ids| && 0 <= j < |ids| && ids[i] != ids[j] && BaseName(ids[i]) == BaseName(ids[j])
      :: BaseName(ids[i])
  }

  /** The names given to ids in order; None when some hashed name raised. */
  function Names(ids: seq<string>, duplicated: set<string>, sha: string -> Digest): (names: Option<seq<string>>)
    ensures names.Some? ==> |names.value| == |ids|
  {
    if ids == [] then Some([])
    else
      var front, id := ids[..|ids| - 1], ids[|ids| - 1];
      match Names(front, duplicated, sha)
      case None => None
      case Some(earlier) =>
        if BaseName(id) in duplicated then
          match FirstFree(BaseName(id), sha(id), Elems(earlier), 1)
          case None => None
          case Some(name) => Some(earlier + [name])
        else Some(earlier + [BaseName(id)])
  }

  function ToMap(ids: seq<string>, names: seq<string>): (m: map<string, string>)
    requires |names| == |ids|
    ensures m.Keys == Elems(ids)
  {
    if ids == [] then map[]
    else ToMap(ids[..|ids| - 1], names[..|ids| - 1])[ids[|ids| - 1] := names[|ids| - 1]]
  }

  function SortedIds(capabilities: seq<Capability>): seq<string> {
    Ids(Sort(capabilities, CapabilityId))
  }

  /** What the method below computes. */
  function ToolNameMap(capabilities: seq<Capability>, sha: string -> Digest): Option<map<string, string>> {
    var ids := SortedIds(capabilities);
    match Names(ids, Duplicated(ids), sha)
    case None => None
    case Some(names) => Some(ToMap(ids, names))
  }

  // ----- The two passes of the source -----

  /** Ids counted so far that have the given base name. */
  ghost function Sharing(seen: set<string>, base: string): set<string> {
    set id | id in seen && BaseName(id) == base
  }

  lemma SharingStep(seen: set<string>, id: string, base: string)
    requires id !in seen
    ensures |Sharing(seen + {id}, base)| == |Sharing(seen, base)| + if BaseName(id) == base then 1 else 0
  {
    hide BaseName;
    if BaseName(id) == base {
      assert Sharing(seen + {id}, base) == Sharing(seen, base) + {id};
    } else {
      assert Sharing(seen + {id}, base) == Sharing(seen, base);
    }
  }

  ghost function CountOf(counts: map<string, nat>, base: string): nat {
    if base in counts then counts[base] else 0
  }

  /** Counter(base_names.values()): base_names is keyed by id, so an id counts once. */
  method CountBaseNames(ids: set<string>) returns (counts: map<string, nat>)
    ensures forall b :: CountOf(counts, b) == |Sharing(ids, b)|
  {
    hide BaseName, Sharing;
    var seen: set<string> := {};
    counts := map[];
    forall b ensures |Sharing({}, b)| == 0 { NothingShared(b); }
    while seen != ids
      invariant seen <= ids
      invariant forall b :: CountOf(counts, b) == |Sharing(seen, b)|
      decreases |ids - seen|
    {
      assert ids - seen != {};
      var id :| id in ids - seen;
      forall b ensures |Sharing(seen + {id}, b)| == |Sharing(seen, b)| + if BaseName(id) == b then 1 else 0 {
        SharingStep(seen, id, b);
      }
      assert ids - (seen + {id}) == (ids - seen) - {id};
      var base := BaseName(id);
      counts := counts[base := (if base in counts then counts[base] else 0) + 1];
      seen := seen + {id};
    }
  }

  lemma NothingShared(base: string)
    ensures Sharing({}, base) == {}
  {
  }

  method DuplicateBaseNames(ids: seq<string>) returns (duplicates: set<string>)
    ensures duplicates == Duplicated(ids)
  {
    hide BaseName, Duplicated, Sharing;
    var counts := CountBaseNames(Elems(ids));
    duplicates := set b | b in counts && counts[b] > 1;
    forall b ensures b in duplicates <==> b in Duplicated(ids) {
      CountsFindDuplicates(ids, b);
      assert CountOf(counts, b) == |Sharing(Elems(ids), b)|;
    }
  }

  lemma CountsFindDuplicates(ids: seq<string>, base: string)
    ensures |Sharing(Elems(ids), base)| > 1 <==> base in Duplicated(ids)
  {
    hide BaseName;
    var s := Sharing(Elems(ids), base);
    if |s| > 1 {
      var x :| x in s;
      assert |s - {x}| > 0;
      var y :| y in s - {x};
      var i :| 0 <= i < |ids| && ids[i] == x;
      var j :| 0 <= j < |ids| && ids[j] == y;
    }
    if base in Duplicated(ids) {
      var i, j :| 0 <= i < |ids| && 0 <= j < |ids| && ids[i] != ids[j] && BaseName(ids[i]) == BaseName(ids[j]) == base;
      assert {ids[i], ids[j]} <= s;
      SubsetCardinality({ids[i], ids[j]}, s);
    }
  }

  method CapabilityToolNameMap(capabilities: seq<Capability>, sha: string -> Digest)
    returns (toolNames: Option<map<string, string>>)
    ensures toolNames == ToolNameMap(capabilities, sha)
  {
    hide BaseName, FirstFree, Duplicated, SortedIds;
    var ids := SortedIds(capabilities);
    var duplicates := DuplicateBaseNames(ids);
    var used: set<string> := {};
    var names: map<string, string> := map[];
    ghost var given: seq<string> := [];
    for i := 0 to |ids|
      invariant |given| == i && used == Elems(given)
      invariant Names(ids[..i], duplicates, sha) == Some(given)
      invariant names == ToMap(ids[..i], given)
    {
      assert ids[..i + 1][..i] == ids[..i];
      var base := BaseName(ids[i]);
      var name := base;
      if base in duplicates {
        var hashed := HashedToolName(base, sha(ids[i]), used);
        if hashed.None? {
          NamesFailForGood(ids, i + 1, duplicates, sha);
          return None;
        }
        name := hashed.value;
      }
      used := used + {name};
      names := names[ids[i] := name];
      assert (given + [name])[..i] == given;
      given := given + [name];
    }
    assert ids[..|ids|] == ids;
    return Some(names);
  }

  /** Once a hashed name raises, no later capability rescues the map. */
  lemma {:induction false} NamesFailForGood(ids: seq<string>, n: nat, duplicated: set<string>, sha: string -> Digest)
    requires n <= |ids| && Names(ids[..n], duplicated, sha).None?
    ensures Names(ids, duplicated, sha).None?
  {
    if n < |ids| {
      assert ids[..|ids| - 1][..n] == ids[..n];
      NamesFailForGood(ids[..|ids| - 1], n, duplicated, sha);
    } else {
      assert ids[..n] == ids;
    }
  }

  // ----- What the map guarantees -----

  /** Each name is its base name, or a candidate not among the names given earlier in sorted order. */
  ghost predicate NameRule(ids: seq<string>, duplicated: set<string>, sha: string -> Digest, names: seq<string>, i: nat)
    requires i < |ids| == |names|
  {
    if BaseName(ids[i]) in duplicated then
      && names[i] !in names[..i]
      && exists k :: 1 <= k <= ROUNDS && names[i] == Candidate(BaseName(ids[i]), sha(ids[i]), k)
    else names[i] == BaseName(ids[i])
  }

  lemma {:induction false} NamesFollowTheRule(ids: seq<string>, duplicated: set<string>, sha: string -> Digest, i: nat)
    requires Names(ids, duplicated, sha).Some? && i < |ids|
    ensures NameRule(ids, duplicated, sha, Names(ids, duplicated, sha).value, i)
  {
    var names := Names(ids, duplicated, sha).value;
    var front, id := ids[..|ids| - 1], ids[|ids| - 1];
    var earlier := Names(front, duplicated, sha).value;
    if i < |ids| - 1 {
      NamesFollowTheRule(front, duplicated, sha, i);
      assert names[..i] == earlier[..i];
    } else {
      assert names[..i] == earlier;
      FirstFreeCorrect(BaseName(id), sha(id), Elems(earlier), 1);
    }
  }

  /** Two capabilities clash only when the later one has an unshared base name, taken without
      looking at the used names, and the earlier one was hashed to exactly that name. */
  lemma ClashesAreShadowedBaseNames(ids: seq<string>, sha: string -> Digest, i: nat, j: nat)
    requires NoDup(ids) && Names(ids, Duplicated(ids), sha).Some? && i < j < |ids|
    ensures var names := Names(ids, Duplicated(ids), sha).value;
      names[i] == names[j] <==> Shadows(ids, sha, i, j)
  {
    hide BaseName, Names, Candidate, Duplicated;
    var names := Names(ids, Duplicated(ids), sha).value;
    NamesFollowTheRule(ids, Duplicated(ids), sha, i);
    NamesFollowTheRule(ids, Duplicated(ids), sha, j);
    if names[i] == names[j] {
      assert names[i] in names[..j];
      if BaseName(ids[i]) == BaseName(ids[j]) { SharedBaseIsDuplicated(ids, i, j); }
    }
  }

  lemma SharedBaseIsDuplicated(ids: seq<string>, i: nat, j: nat)
    requires i < j < |ids| && ids[i] != ids[j] && BaseName(ids[i]) == BaseName(ids[j])
    ensures BaseName(ids[i]) in Duplicated(ids)
  {
    hide BaseName;
  }

  /** The unshared base name of ids[j] equals the name ids[i] was hashed to. */
  ghost predicate Shadows(ids: seq<string>, sha: string -> Digest, i: nat, j: nat)
    requires Names(ids, Duplicated(ids), sha).Some? && i < j < |ids|
  {
    && BaseName(ids[i]) in Duplicated(ids)
    && BaseName(ids[j]) !in Duplicated(ids)
    && Names(ids, Duplicated(ids), sha).value[i] == BaseName(ids[j])
  }

  /** The names are injective exactly when no unshared base name is an earlier hashed name. */
  lemma NamesInjectiveIff(ids: seq<string>, sha: string -> Digest)
    requires NoDup(ids) && Names(ids, Duplicated(ids), sha).Some?
    ensures NoDup(Names(ids, Duplicated(ids), sha).value)
       <==> forall i, j :: 0 <= i < j < |ids| ==> !Shadows(ids, sha, i, j)
  {
    hide Shadows, Names, Duplicated;
    forall i, j | 0 <= i < j < |ids|
      ensures var names := Names(ids, Duplicated(ids), sha).value; names[i] == names[j] <==> Shadows(ids, sha, i, j)
    {
      ClashesAreShadowedBaseNames(ids, sha, i, j);
    }
  }

  /** Ends with an underscore and 8, 16, ..., 64 hex digits. */
  ghost predicate LooksHashed(name: string) {
    exists k :: 1 <= k <= ROUNDS && EndsWithHex(name, HASH_STEP * k)
  }

  predicate EndsWithHex(name: string, digits: nat) {
    && |name| > digits && name[|name| - digits - 1] == '_'
    && forall i :: |name| - digits <= i < |name| ==> IsHex(name[i])
  }

  /** A condition on the ids alone: with no unshared base name of the hashed form, names are injective. */
  lemma NamesInjectiveUnlessABaseLooksHashed(ids: seq<string>, sha: string -> Digest)
    requires NoDup(ids) && Names(ids, Duplicated(ids), sha).Some?
    requires forall j :: 0 <= j < |ids| && BaseName(ids[j]) !in Duplicated(ids) ==> !LooksHashed(BaseName(ids[j]))
    ensures NoDup(Names(ids, Duplicated(ids), sha).value)
  {
    hide BaseName, Names, Duplicated, LooksHashed;
    NamesInjectiveIff(ids, sha);
    forall i, j | 0 <= i < j < |ids| ensures !Shadows(ids, sha, i, j) {
      if Shadows(ids, sha, i, j) { ShadowedBaseLooksHashed(ids, sha, i, j); }
    }
  }

  lemma ShadowedBaseLooksHashed(ids: seq<string>, sha: string -> Digest, i: nat, j: nat)
    requires Names(ids, Duplicated(ids), sha).Some? && i < j < |ids|
    requires Shadows(ids, sha, i, j)
    ensures LooksHashed(BaseName(ids[j]))
  {
    hide BaseName, Names, Duplicated, Candidate;
    NamesFollowTheRule(ids, Duplicated(ids), sha, i);
    var k :| 1 <= k <= ROUNDS && BaseName(ids[j]) == Candidate(BaseName(ids[i]), sha(ids[i]), k);
    CandidateShape(BaseName(ids[i]), sha(ids[i]), k);
    assert EndsWithHex(BaseName(ids[j]), HASH_STEP * k);
  }

  // ----- Conditions on the ids and their hashes alone -----

  /** Some candidate of the shared base name of ids[i]. */
  ghost predicate IsCandidateOf(ids: seq<string>, sha: string -> Digest, i: nat, name: string)
    requires i < |ids|
  {
    exists k :: 1 <= k <= ROUNDS && name == Candidate(BaseName(ids[i]), sha(ids[i]), k)
  }

  /** Names are injective if no unshared base name is a candidate of an earlier id with a shared one. */
  lemma NamesInjectiveUnlessABaseIsACandidate(ids: seq<string>, sha: string -> Digest)
    requires NoDup(ids) && Names(ids, Duplicated(ids), sha).Some?
    requires forall i, j :: 0 <= i < j < |ids| ==> (
      BaseName(ids[i]) in Duplicated(ids) && BaseName(ids[j]) !in Duplicated(ids) ==>
        !IsCandidateOf(ids, sha, i, BaseName(ids[j])))
    ensures NoDup(Names(ids, Duplicated(ids), sha).value)
  {
    hide BaseName, Names, Duplicated, Candidate;
    NamesInjectiveIff(ids, sha);
    forall i, j | 0 <= i < j < |ids| ensures !Shadows(ids, sha, i, j) {
      NamesFollowTheRule(ids, Duplicated(ids), sha, i);
    }
  }

  function FirstCandidate(id: string, sha: string -> Digest): string {
    Candidate(BaseName(id), sha(id), 1)
  }

  /** No first-round candidate is an earlier unshared base name or an earlier first-round candidate. */
  ghost predicate FirstRoundFree(ids: seq<string>, duplicated: set<string>, sha: string -> Digest) {
    forall m, i :: 0 <= m < i < |ids| && BaseName(ids[i]) in duplicated ==>
      FirstCandidate(ids[i], sha) != if BaseName(ids[m]) in duplicated then FirstCandidate(ids[m], sha)
        else BaseName(ids[m])
  }

  /** What the map gives when the first round is free: it never raises and hashes once. */
  lemma {:induction false} FirstRoundNames(ids: seq<string>, duplicated: set<string>, sha: string -> Digest)
    requires FirstRoundFree(ids, duplicated, sha)
    ensures Names(ids, duplicated, sha).Some?
    ensures forall i :: 0 <= i < |ids| ==> (
      Names(ids, duplicated, sha).value[i] == if BaseName(ids[i]) in duplicated then FirstCandidate(ids[i], sha)
        else BaseName(ids[i]))
  {
    hide BaseName, Candidate;
    if ids != [] {
      var front, id := ids[..|ids| - 1], ids[|ids| - 1];
      FirstRoundNames(front, duplicated, sha);
      var earlier := Names(front, duplicated, sha).value;
      if BaseName(id) in duplicated {
        forall m | 0 <= m < |earlier| ensures earlier[m] != FirstCandidate(id, sha) { }
        assert FirstCandidate(id, sha) !in Elems(earlier);
      }
    }
  }

  /** Where the first round is free, names are injective exactly when no unshared base name is the
      first-round candidate of an earlier id with a shared one. */
  lemma NamesInjectiveIffOnIds(ids: seq<string>, sha: string -> Digest)
    requires NoDup(ids) && FirstRoundFree(ids, Duplicated(ids), sha)
    ensures Names(ids, Duplicated(ids), sha).Some?
    ensures NoDup(Names(ids, Duplicated(ids), sha).value) <==> (
      forall i, j :: 0 <= i < j < |ids| && BaseName(ids[i]) in Duplicated(ids) && BaseName(ids[j]) !in Duplicated(ids)
        ==> FirstCandidate(ids[i], sha) != BaseName(ids[j]))
  {
    hide BaseName, Names, Duplicated, Candidate, FirstRoundFree, FirstCandidate;
    FirstRoundNames(ids, Duplicated(ids), sha);
    NamesInjectiveIff(ids, sha);
    forall i, j | 0 <= i < j < |ids|
      ensures Shadows(ids, sha, i, j) <==> (
        && BaseName(ids[i]) in Duplicated(ids) && BaseName(ids[j]) !in Duplicated(ids)
        && FirstCandidate(ids[i], sha) == BaseName(ids[j]))
    {
    }
  }

  // ----- The map does clash, and does raise -----

  /** Two ids that share a base name, and a third spelled like the first one's hashed name. */
  function ClashIds(sha: string -> Digest): seq<string> {
    ["a.b", "a_b", "a_b_" + sha("a.b")[..8]]
  }

  /** Injectivity does fail: whatever the hash, these three valid ids give two capabilities one name. */
  lemma SomeIdsClash(sha: string -> Digest)
    ensures var ids := ClashIds(sha);
      && (forall i :: 0 <= i < |ids| ==> ValidId(ids[i]))
      && Before(ids[0], ids[1]) && Before(ids[1], ids[2])
      && Names(ids, Duplicated(ids), sha).Some? && !NoDup(Names(ids, Duplicated(ids), sha).value)
  {
    hide BaseName, Candidate, FirstFree, Names, ValidId;
    var ids := ClashIds(sha);
    ClashIdsInOrder(sha);
    TwoSharingBases(sha("a.b"));
    DashedIds("_", sha("a.b"), 1);
    CandidateOfShared(sha("a.b"), 1);
    assert ids[2] == "a_b_" + sha("a.b")[..8] == Spelled("_", sha("a.b"), 1);
    assert ids[0] == "a.b" && ids[1] == "a_b";
    assert forall i :: 0 <= i < 3 ==> ValidId(ids[i]);
    assert "a_b" in Duplicated(ids) && ids[2] !in Duplicated(ids);
    if Names(ids, Duplicated(ids), sha).None? { NamesFailOnlyWhenCrowded(ids, Duplicated(ids), sha); }
    FirstNameIsFirstCandidate(ids, sha);
    assert Shadows(ids, sha, 0, 2);
    NamesInjectiveIff(ids, sha);
  }

  lemma ClashIdsInOrder(sha: string -> Digest)
    ensures NoDup(ClashIds(sha))
    ensures Before(ClashIds(sha)[0], ClashIds(sha)[1]) && Before(ClashIds(sha)[1], ClashIds(sha)[2])
  {
    var ids := ClashIds(sha);
    assert |ids[2]| == 12;
    assert ids[0][1..] == ".b" && ids[1][1..] == "_b";
    assert Before(".b", "_b");
    PrefixBefore(ids[1], ids[2]);
  }

  lemma TwoSharingBases(digest: Digest)
    ensures ValidId("a.b") && ValidId("a_b") && BaseName("a.b") == "a_b" == BaseName("a_b")
  {
    hide BaseName;
    assert Flat("a.b") == "a_b" && Flat("a_b") == "a_b";
    BaseNameOfValidId("a.b");
    BaseNameOfValidId("a_b");
  }

  /** An id spelled like a hashed name, with any separator in place of its underscores. */
  function Spelled(separator: string, digest: Digest, round: nat): string
    requires round <= ROUNDS
  {
    "a" + separator + "b" + separator + digest[..HASH_STEP * round]
  }

  lemma DashedIds(separator: string, digest: Digest, round: nat)
    requires 1 <= round <= ROUNDS && (separator == "-" || separator == "_")
    ensures ValidId(Spelled(separator, digest, round))
    ensures BaseName(Spelled(separator, digest, round)) == "a_b_" + digest[..HASH_STEP * round]
  {
    hide BaseName;
    var id, n := Spelled(separator, digest, round), HASH_STEP * round;
    assert |id| == 4 + n && id[0] == 'a' && id[1] == separator[0] && id[2] == 'b' && id[3] == separator[0];
    assert forall i :: 4 <= i < 4 + n ==> id[i] == digest[i - 4] && IsHex(id[i]);
    assert ValidId(id);
    BaseNameOfValidId(id);
    assert Flat(id) == "a_b_" + digest[..n];
  }

  lemma CandidateOfShared(digest: Digest, round: nat)
    requires 1 <= round <= ROUNDS
    ensures Candidate("a_b", digest, round) == "a_b_" + digest[..HASH_STEP * round]
  {
    assert DropRight("a_b", IsUnderscore) == "a_b";
  }

  lemma {:induction false} PrefixBefore(a: string, b: string)
    requires a < b
    ensures Before(a, b)
  {
    if a != "" {
      assert a[0] == b[0] && a[1..] < b[1..];
      PrefixBefore(a[1..], b[1..]);
    }
  }

  /** The first capability in sorted order meets no used name, so its hash needs one round. */
  lemma {:induction false} FirstNameIsFirstCandidate(ids: seq<string>, sha: string -> Digest)
    requires ids != [] && Names(ids, Duplicated(ids), sha).Some?
    requires BaseName(ids[0]) in Duplicated(ids)
    ensures Names(ids, Duplicated(ids), sha).value[0] == Candidate(BaseName(ids[0]), sha(ids[0]), 1)
  {
    FirstNameStaysFirst(ids, Duplicated(ids), sha);
  }

  lemma {:induction false} FirstNameStaysFirst(ids: seq<string>, duplicated: set<string>, sha: string -> Digest)
    requires ids != [] && Names(ids, duplicated, sha).Some?
    requires BaseName(ids[0]) in duplicated
    ensures Names(ids, duplicated, sha).value[0] == Candidate(BaseName(ids[0]), sha(ids[0]), 1)
  {
    if |ids| > 1 {
      FirstNameStaysFirst(ids[..|ids| - 1], duplicated, sha);
    } else {
      assert ids[..0] == [];
    }
  }

  /** Every name fits the MCP pattern; it fits the 128 limit exactly when it was hashed or its base
      name fits already. The bound is only enforced on hashed names. */
  lemma NamesFitIff(ids: seq<string>, sha: string -> Digest, i: nat)
    requires Names(ids, Duplicated(ids), sha).Some? && i < |ids|
    ensures var name := Names(ids, Duplicated(ids), sha).value[i];
      && FitsPattern(name)
      && (|name| <= MAX_TOOL_NAME_LENGTH
          <==> (BaseName(ids[i]) in Duplicated(ids) || |BaseName(ids[i])| <= MAX_TOOL_NAME_LENGTH))
  {
    NamesFollowTheRule(ids, Duplicated(ids), sha, i);
    BaseNameShape(ids[i]);
    if BaseName(ids[i]) in Duplicated(ids) {
      var names := Names(ids, Duplicated(ids), sha).value;
      var k :| 1 <= k <= ROUNDS && names[i] == Candidate(BaseName(ids[i]), sha(ids[i]), k);
      CandidateShape(BaseName(ids[i]), sha(ids[i]), k);
    }
  }

  /** A map can fail only with at least nine capabilities. */
  lemma {:induction false} NamesFailOnlyWhenCrowded(ids: seq<string>, duplicated: set<string>, sha: string -> Digest)
    requires Names(ids, duplicated, sha).None?
    ensures |ids| >= 9
  {
    var front, id := ids[..|ids| - 1], ids[|ids| - 1];
    if Names(front, duplicated, sha).None? {
      NamesFailOnlyWhenCrowded(front, duplicated, sha);
    } else {
      var earlier := Names(front, duplicated, sha).value;
      HashedNameFailsOnlyWhenCrowded(BaseName(id), sha(id), Elems(earlier));
      ElemsAtMost(earlier);
    }
  }

  /** ids[n] finds all of its eight candidates among the names given before it. */
  ghost predicate CrowdedAt(ids: seq<string>, duplicated: set<string>, sha: string -> Digest, n: nat)
    requires n < |ids|
  {
    && Names(ids[..n], duplicated, sha).Some?
    && BaseName(ids[n]) in duplicated
    && forall k :: 1 <= k <= ROUNDS ==>
         Candidate(BaseName(ids[n]), sha(ids[n]), k) in Elems(Names(ids[..n], duplicated, sha).value)
  }

  /** The map raises exactly when some id with a shared base name is crowded out. */
  lemma {:induction false} NamesFailIff(ids: seq<string>, duplicated: set<string>, sha: string -> Digest)
    ensures Names(ids, duplicated, sha).None? <==> exists n :: 0 <= n < |ids| && CrowdedAt(ids, duplicated, sha, n)
  {
    hide BaseName, Candidate, FirstFree;
    if n :| 0 <= n < |ids| && CrowdedAt(ids, duplicated, sha, n) {
      assert ids[..n + 1][..n] == ids[..n];
      FirstFreeCorrect(BaseName(ids[n]), sha(ids[n]), Elems(Names(ids[..n], duplicated, sha).value), 1);
      NamesFailForGood(ids, n + 1, duplicated, sha);
    }
    if Names(ids, duplicated, sha).None? {
      var front, id := ids[..|ids| - 1], ids[|ids| - 1];
      if Names(front, duplicated, sha).None? {
        NamesFailIff(front, duplicated, sha);
        var n :| 0 <= n < |front| && CrowdedAt(front, duplicated, sha, n);
        assert front[..n] == ids[..n];
        assert CrowdedAt(ids, duplicated, sha, n);
      } else {
        FirstFreeCorrect(BaseName(id), sha(id), Elems(Names(front, duplicated, sha).value), 1);
        assert CrowdedAt(ids, duplicated, sha, |ids| - 1);
      }
    }
  }

  /** The eight hashed names of "a.b" as ids of their own, with dashes, before two ids that share "a_b". */
  function CrowdedIds(sha: string -> Digest): (ids: seq<string>)
    ensures |ids| == 10 && ids[8] == "a.b" && ids[9] == "a_b"
    ensures forall i :: 0 <= i < 8 ==> ids[i] == Spelled("-", sha("a.b"), i + 1)
  {
    seq(8, i requires 0 <= i < 8 => Spelled("-", sha("a.b"), i + 1)) + ["a.b", "a_b"]
  }

  lemma CrowdedIdsInOrder(sha: string -> Digest, i: nat, j: nat)
    requires i < j < 10
    ensures Before(CrowdedIds(sha)[i], CrowdedIds(sha)[j])
  {
    var ids := CrowdedIds(sha);
    if j < 8 {
      assert sha("a.b")[..8 * (i + 1)] < sha("a.b")[..8 * (j + 1)];
      PrefixBefore(ids[i], ids[j]);
    } else {
      assert ids[i][0] == 'a' == ids[j][0];
      assert ids[i][1..] != "" && ids[j][1..] != "" && ids[i][1..][0] == ids[i][1] && ids[j][1..][0] == ids[j][1];
      assert ids[i][1] < ids[j][1];
    }
  }

  lemma CrowdedBases(sha: string -> Digest)
    ensures Duplicated(CrowdedIds(sha)) == {"a_b"}
    ensures forall i :: 0 <= i < 10 ==> ValidId(CrowdedIds(sha)[i])
    ensures forall i :: 0 <= i < 8 ==> (
      BaseName(CrowdedIds(sha)[i]) == Candidate("a_b", sha("a.b"), i + 1) && BaseName(CrowdedIds(sha)[i]) != "a_b")
    ensures BaseName("a.b") == "a_b" == BaseName("a_b")
  {
    hide BaseName, Candidate, ValidId, Spelled;
    var ids := CrowdedIds(sha);
    TwoSharingBases(sha("a.b"));
    forall i | 0 <= i < 8
      ensures ValidId(ids[i]) && BaseName(ids[i]) == Candidate("a_b", sha("a.b"), i + 1)
      && |BaseName(ids[i])| == 12 + 8 * i {
      DashedIds("-", sha("a.b"), i + 1);
      CandidateOfShared(sha("a.b"), i + 1);
    }
    assert ids[8] in ids;
    forall b ensures b in Duplicated(ids) <==> b == "a_b" {
      if b in Duplicated(ids) {
        var i, j :| 0 <= i < |ids| && 0 <= j < |ids| && ids[i] != ids[j] && BaseName(ids[i]) == BaseName(ids[j]) == b;
        assert i < 8 ==> |b| == 12 + 8 * i;
        assert j < 8 ==> |b| == 12 + 8 * j;
      }
      assert ids[8] != ids[9];
    }
  }

  /** The map does raise: whatever the hash, these ten valid ids, in this order, crowd out "a.b". */
  lemma SomeIdsRaise(sha: string -> Digest)
    ensures var ids := CrowdedIds(sha);
      && (forall i :: 0 <= i < |ids| ==> ValidId(ids[i]))
      && (forall i, j :: 0 <= i < j < |ids| ==> Before(ids[i], ids[j]))
      && Names(ids, Duplicated(ids), sha).None?
  {
    hide BaseName, Candidate, FirstFree, ValidId, Spelled, Before, Duplicated;
    var ids := CrowdedIds(sha);
    var duplicated := Duplicated(ids);
    CrowdedBases(sha);
    forall i, j | 0 <= i < j < |ids| ensures Before(ids[i], ids[j]) { CrowdedIdsInOrder(sha, i, j); }
    UnsharedNames(ids[..8], duplicated, sha);
    var names := Names(ids[..8], duplicated, sha).value;
    forall k | 1 <= k <= ROUNDS ensures Candidate("a_b", sha("a.b"), k) in Elems(names) {
      assert names[k - 1] == BaseName(ids[k - 1]);
    }
    assert CrowdedAt(ids, duplicated, sha, 8);
    NamesFailIff(ids, duplicated, sha);
  }

  lemma {:induction false} UnsharedNames(ids: seq<string>, duplicated: set<string>, sha: string -> Digest)
    requires forall i :: 0 <= i < |ids| ==> BaseName(ids[i]) !in duplicated
    ensures Names(ids, duplicated, sha).Some?
    ensures forall i :: 0 <= i < |ids| ==> Names(ids, duplicated, sha).value[i] == BaseName(ids[i])
  {
    hide BaseName;
    if ids != [] { UnsharedNames(ids[..|ids| - 1], duplicated, sha); }
  }

  lemma {:induction false} ElemsAtMost<T>(xs: seq<T>)
    ensures |Elems(xs)| <= |xs|
  {
    if xs != [] {
      ElemsAtMost(xs[1..]);
      assert Elems(xs) == {xs[0]} + Elems(xs[1..]);
    }
  }

  lemma {:induction false} ToMapCorrect(ids: seq<string>, names: seq<string>, i: nat)
    requires |names| == |ids| && NoDup(ids) && i < |ids|
    ensures ToMap(ids, names)[ids[i]] == names[i]
  {
    var n := |ids| - 1;
    if i < n {
      ToMapCorrect(ids[..n], names[..n], i);
      assert ids[..n][i] == ids[i] && ids[i] != ids[n];
    }
  }

  /** Rows read through the primary key give distinct, strictly increasing ids. */
  lemma SortedIdsDistinct(capabilities: seq<Capability>)
    requires DistinctKeys(capabilities, CapabilityId)
    ensures NoDup(SortedIds(capabilities))
    ensures Elems(SortedIds(capabilities)) == Elems(Ids(capabilities))
  {
    hide Sort, Before;
    SortStrict(capabilities, CapabilityId);
    SortCorrect(capabilities, CapabilityId);
    var sorted := Sort(capabilities, CapabilityId);
    SameElements(sorted, capabilities);
    forall id ensures id in Elems(SortedIds(capabilities)) <==> id in Elems(Ids(capabilities)) {
      if id in Ids(sorted) {
        var i :| 0 <= i < |sorted| && Ids(sorted)[i] == id;
        assert sorted[i] in capabilities;
        var j :| 0 <= j < |capabilities| && capabilities[j] == sorted[i];
        assert Ids(capabilities)[j] == id;
      }
      if id in Ids(capabilities) {
        var i :| 0 <= i < |capabilities| && Ids(capabilities)[i] == id;
        assert capabilities[i] in sorted;
        var j :| 0 <= j < |sorted| && sorted[j] == capabilities[i];
        assert Ids(sorted)[j] == id;
      }
    }
  }

  ghost predicate Injective(names: map<string, string>) {
    forall a, b :: a in names && b in names && a != b ==> names[a] != names[b]
  }

  /** For rows with distinct ids the map is defined on exactly those ids, and it gives two of them one
      name exactly when an unshared base name shadows an earlier hashed name. */
  lemma ToolNameMapInjectiveIff(capabilities: seq<Capability>, sha: string -> Digest)
    requires DistinctKeys(capabilities, CapabilityId) && ToolNameMap(capabilities, sha).Some?
    ensures ToolNameMap(capabilities, sha).value.Keys == Elems(Ids(capabilities))
    ensures var ids := SortedIds(capabilities);
      Injective(ToolNameMap(capabilities, sha).value)
      <==> forall i, j :: 0 <= i < j < |ids| ==> !Shadows(ids, sha, i, j)
  {
    hide Duplicated, Names, Shadows, Ids, Injective, ToMap, NoDup;
    SortedIdsDistinct(capabilities);
    var ids := SortedIds(capabilities);
    var names := Names(ids, Duplicated(ids), sha).value;
    NamesInjectiveIff(ids, sha);
    InjectiveFromNames(ids, names);
    NamesFromInjective(ids, names);
  }

  lemma NamesFromInjective(ids: seq<string>, names: seq<string>)
    requires |names| == |ids| && NoDup(ids)
    ensures Injective(ToMap(ids, names)) ==> NoDup(names)
  {
    hide ToMap;
    forall i, j | 0 <= i < j < |names| && Injective(ToMap(ids, names)) ensures names[i] != names[j] {
      ToMapCorrect(ids, names, i);
      ToMapCorrect(ids, names, j);
      assert ids[i] in ToMap(ids, names) && ids[j] in ToMap(ids, names) && ids[i] != ids[j];
    }
  }

  lemma InjectiveFromNames(ids: seq<string>, names: seq<string>)
    requires |names| == |ids| && NoDup(ids)
    ensures NoDup(names) ==> Injective(ToMap(ids, names))
  {
    hide ToMap;
    var m := ToMap(ids, names);
    forall a, b | a in m && b in m && a != b && NoDup(names) ensures m[a] != m[b] {
      var i :| 0 <= i < |ids| && ids[i] == a;
      var j :| 0 <= j < |ids| && ids[j] == b;
      ToMapCorrect(ids, names, i);
      ToMapCorrect(ids, names, j);
    }
  }
}
