/**
  Resolving the authenticated contract templates: deployment placeholders are replaced by the
  NFT ids and, in the duplicate-prevention source, by the hash of the compiled unlock tree.
 */
module ContractSources {
  import opened Prelude

  const TRACKER_NFT := "TRACKER_NFT_ID_PLACEHOLDER"
  const DUP_NFT := "DUP_NFT_ID_PLACEHOLDER"
  const UNLOCK_HASH := "AUTHENTICATED_UNLOCK_HASH_PLACEHOLDER"

  // ----- Text -----

  predicate OccursAt(s: string, p: string, i: nat) {
    i + |p| <= |s| && s[i..i + |p|] == p
  }

  predicate Includes(s: string, p: string) {
    exists i: nat :: i <= |s| && OccursAt(s, p, i)
  }

  /** Replaces the occurrences from left to right, without overlap. */
  function ReplaceAll(s: string, p: string, v: string): string
    requires p != ""
    decreases |s|
  {
    if |s| < |p| then s
    else if OccursAt(s, p, 0) then v + ReplaceAll(s[|p|..], p, v)
    else [s[0]] + ReplaceAll(s[1..], p, v)
  }

  /** Where a placeholder occurred, its value occurs after replacement. */
  lemma {:induction false} ReplacementOccurs(s: string, p: string, v: string)
    requires p != "" && Includes(s, p)
    ensures Includes(ReplaceAll(s, p, v), v)
    decreases |s|
  {
    var i: nat :| i <= |s| && OccursAt(s, p, i);
    if OccursAt(s, p, 0) {
      assert OccursAt(ReplaceAll(s, p, v), v, 0);
    } else {
      assert OccursAt(s[1..], p, i - 1);
      ReplacementOccurs(s[1..], p, v);
      var rest := ReplaceAll(s[1..], p, v);
      var j: nat :| j <= |rest| && OccursAt(rest, v, j);
      assert ([s[0]] + rest)[j + 1..j + 1 + |v|] == rest[j..j + |v|];
      assert OccursAt([s[0]] + rest, v, j + 1);
    }
  }

  /** Text without the placeholder is left alone. */
  lemma {:induction false} NothingToReplace(s: string, p: string, v: string)
    requires p != "" && !Includes(s, p)
    ensures ReplaceAll(s, p, v) == s
    decreases |s|
  {
    if |s| < |p| {
    } else {
      assert !OccursAt(s, p, 0);
      forall i: nat | i <= |s| - 1
        ensures !OccursAt(s[1..], p, i)
      {
        assert !OccursAt(s, p, i + 1);
      }
      NothingToReplace(s[1..], p, v);
    }
  }

  predicate HexDigit(c: char) {
    '0' <= c <= '9' || 'a' <= c <= 'f'
  }

  /** Non-empty lower-case hex text. */
  predicate HexText(s: string) {
    s != "" && forall i :: 0 <= i < |s| ==> HexDigit(s[i])
  }

  predicate NoHex(s: string) {
    forall i :: 0 <= i < |s| ==> !HexDigit(s[i])
  }

  /** Text free of hex digits starts the result of a replacement for every value or for none. */
  lemma {:induction false} SamePrefixes(s: string, p: string, v: string, w: string, q: string)
    requires p != "" && HexText(v) && HexText(w) && NoHex(q)
    ensures OccursAt(ReplaceAll(s, p, v), q, 0) == OccursAt(ReplaceAll(s, p, w), q, 0)
    decreases |s|
  {
    if q == "" || |s| < |p| {
    } else if OccursAt(s, p, 0) {
      assert q[0] != v[0] && q[0] != w[0];
      NoPrefix(v, ReplaceAll(s[|p|..], p, v), q);
      NoPrefix(w, ReplaceAll(s[|p|..], p, w), q);
    } else {
      SamePrefixes(s[1..], p, v, w, q[1..]);
      PrefixStep(s[0], ReplaceAll(s[1..], p, v), q);
      PrefixStep(s[0], ReplaceAll(s[1..], p, w), q);
    }
  }

  lemma NoPrefix(v: string, rest: string, q: string)
    requires v != "" && q != "" && q[0] != v[0]
    ensures !OccursAt(v + rest, q, 0)
  {
    assert |q| <= |v + rest| ==> (v + rest)[0..|q|][0] == v[0];
  }

  lemma PrefixStep(c: char, rest: string, q: string)
    requires q != ""
    ensures OccursAt([c] + rest, q, 0) <==> q[0] == c && OccursAt(rest, q[1..], 0)
  {
    var whole := [c] + rest;
    if OccursAt(whole, q, 0) {
      assert whole[..|q|] == q && whole[0] == c;
      assert rest[..|q| - 1] == whole[1..|q|] == q[1..];
    }
    if q[0] == c && OccursAt(rest, q[1..], 0) {
      assert whole[..|q|] == [c] + rest[..|q| - 1] == q;
    }
  }

  lemma IncludesStep(c: char, rest: string, q: string)
    ensures Includes([c] + rest, q) <==> OccursAt([c] + rest, q, 0) || Includes(rest, q)
  {
    var whole := [c] + rest;
    if i: nat :| i <= |whole| && OccursAt(whole, q, i) && 0 < i {
      assert rest[i - 1..i - 1 + |q|] == whole[i..i + |q|];
      assert OccursAt(rest, q, i - 1);
    }
    if i: nat :| i <= |rest| && OccursAt(rest, q, i) {
      assert whole[i + 1..i + 1 + |q|] == rest[i..i + |q|];
      assert OccursAt(whole, q, i + 1);
    }
  }

  /** A hex value in front neither makes nor hides an occurrence of hex-free text. */
  lemma {:induction false} IncludesAfterHex(v: string, rest: string, q: string)
    requires NoHex(q) && q != "" && forall i :: 0 <= i < |v| ==> HexDigit(v[i])
    ensures Includes(v + rest, q) <==> Includes(rest, q)
  {
    if v == "" {
      assert v + rest == rest;
    } else {
      assert v + rest == [v[0]] + (v[1..] + rest);
      NoPrefix(v, rest, q);
      IncludesStep(v[0], v[1..] + rest, q);
      IncludesAfterHex(v[1..], rest, q);
    }
  }

  /** Whether a replacement leaves hex-free text behind does not depend on the hex value put in. */
  lemma {:induction false} SameLeftovers(s: string, p: string, v: string, w: string, q: string)
    requires p != "" && HexText(v) && HexText(w) && NoHex(q) && q != ""
    ensures Includes(ReplaceAll(s, p, v), q) <==> Includes(ReplaceAll(s, p, w), q)
    decreases |s|
  {
    hide Includes;
    if |s| < |p| {
    } else if OccursAt(s, p, 0) {
      SameLeftovers(s[|p|..], p, v, w, q);
      IncludesAfterHex(v, ReplaceAll(s[|p|..], p, v), q);
      IncludesAfterHex(w, ReplaceAll(s[|p|..], p, w), q);
    } else {
      SameLeftovers(s[1..], p, v, w, q);
      SamePrefixes(s, p, v, w, q);
      IncludesStep(s[0], ReplaceAll(s[1..], p, v), q);
      IncludesStep(s[0], ReplaceAll(s[1..], p, w), q);
    }
  }

  // ----- Templates -----

  type Replacements = r: seq<(string, string)> | forall i :: 0 <= i < |r| ==> r[i].0 != "" witness []

  /** The first n replacements, in order; None when one has nothing to replace. */
  function Replaced(source: string, reps: Replacements, n: nat): Option<string>
    requires n <= |reps|
  {
    if n == 0 then Some(source)
    else
      var before := Replaced(source, reps, n - 1);
      if before == None || !Includes(before.value, reps[n - 1].0) then None
      else Some(ReplaceAll(before.value, reps[n - 1].0, reps[n - 1].1))
  }

  predicate Unresolved(s: string) {
    Includes(s, TRACKER_NFT) || Includes(s, DUP_NFT) || Includes(s, UNLOCK_HASH)
  }

  function Resolve(source: string, reps: Replacements): Option<string> {
    var r := Replaced(source, reps, |reps|);
    if r == None || Unresolved(r.value) then None else r
  }

  /** resolveTemplate */
  method ResolveTemplate(source: string, replacements: Replacements) returns (r: Option<string>)
    ensures r == Resolve(source, replacements)
  {
    hide ReplaceAll, Includes;
    var resolved := source;
    var i: nat := 0;
    while i < |replacements|
      invariant i <= |replacements|
      invariant Replaced(source, replacements, i) == Some(resolved)
    {
      var (placeholder, value) := replacements[i];
      if !Includes(resolved, placeholder) {
        StaysMissing(source, replacements, i + 1, |replacements|);
        return None;
      }
      resolved := ReplaceAll(resolved, placeholder, value);
      i := i + 1;
    }
    if Unresolved(resolved) {
      return None;
    }
    return Some(resolved);
  }

  lemma {:induction false} StaysMissing(source: string, reps: Replacements, n: nat, m: nat)
    requires n <= m <= |reps| && Replaced(source, reps, n) == None
    ensures Replaced(source, reps, m) == None
    decreases m
  {
    if n < m {
      StaysMissing(source, reps, n, m - 1);
    }
  }

  /** A template resolves exactly if every placeholder is found in its turn and none is left behind. */
  lemma ResolvesIff(source: string, reps: Replacements)
    ensures var (r, replaced) := (Resolve(source, reps), Replaced(source, reps, |reps|));
            && (r.Some? <==>
                  && replaced.Some?
                  && !Includes(replaced.value, TRACKER_NFT) && !Includes(replaced.value, DUP_NFT)
                  && !Includes(replaced.value, UNLOCK_HASH))
            && (r.Some? ==> r == replaced)
  {
    hide Includes, Replaced;
  }

  /** A resolved source embeds the last value put in. */
  lemma EmbedsLast(source: string, reps: Replacements)
    requires reps != [] && Resolve(source, reps).Some?
    ensures Includes(Resolve(source, reps).value, reps[|reps| - 1].1)
  {
    hide ReplaceAll, Includes, Unresolved;
    var n := |reps|;
    assert Replaced(source, reps, n).Some?;
    ReplacementOccurs(Replaced(source, reps, n - 1).value, reps[n - 1].0, reps[n - 1].1);
  }

  // ----- The three contracts -----

  datatype Role = Tracker | Unlock | Dup

  datatype Three<T> = Three(tracker: T, unlock: T, dup: T) {
    function At(role: Role): T {
      match role
      case Tracker => tracker
      case Unlock => unlock
      case Dup => dup
    }
  }

  /** Hash functions and text tests of other components: SHA-256 of a text and of the bytes of a
      hex string, Blake2b-256 of the bytes of a hex string. */
  datatype Hashes = Hashes(sha: string -> Hex, shaBytes: Hex -> Hex, blake: Hex -> Hex, blank: string -> bool)

  datatype ContractInput = ContractInput(sourceTemplate: string, templateSha: Hex, tree: Hex, treeSha: Hex)

  datatype Source = Source(templateSha: Hex, sourceSha: Hex, source: string, tree: Hex, treeSha: Hex)

  datatype Sources = Sources(contracts: Three<Source>, unlockHash: Hex)

  /** validateContractPin */
  predicate Pinned(h: Hashes, c: ContractInput) {
    !h.blank(c.sourceTemplate) && h.sha(c.sourceTemplate) == c.templateSha && h.shaBytes(c.tree) == c.treeSha
  }

  predicate DistinctTrees(t: Three<Hex>) {
    t.tracker != t.unlock && t.tracker != t.dup && t.unlock != t.dup
  }

  function UnlockSource(template: string, trackerNft: Hex, dupNft: Hex): Option<string> {
    Resolve(template, [(TRACKER_NFT, trackerNft), (DUP_NFT, dupNft)])
  }

  function DupSource(template: string, trackerNft: Hex, unlockHash: Hex): Option<string> {
    Resolve(template, [(TRACKER_NFT, trackerNft), (UNLOCK_HASH, unlockHash)])
  }

  function Bind(h: Hashes, c: ContractInput, source: string): Source {
    Source(c.templateSha, h.sha(source), source, c.tree, c.treeSha)
  }

  /** resolveAuthenticatedV2ContractSources */
  function ResolveSources(h: Hashes, input: Three<ContractInput>, trackerNft: Hex, dupNft: Hex): Option<Sources> {
    if !Pinned(h, input.tracker) || !Pinned(h, input.unlock) || !Pinned(h, input.dup) then None
    else if !DistinctTrees(Three(input.tracker.tree, input.unlock.tree, input.dup.tree)) then None
    else
      var unlock := UnlockSource(input.unlock.sourceTemplate, trackerNft, dupNft);
      var unlockHash := h.blake(input.unlock.tree);
      var dup := DupSource(input.dup.sourceTemplate, trackerNft, unlockHash);
      if unlock == None || dup == None || Unresolved(input.tracker.sourceTemplate) then None
      else Some(Sources(Three(Bind(h, input.tracker, input.tracker.sourceTemplate), Bind(h, input.unlock, unlock.value),
                              Bind(h, input.dup, dup.value)), unlockHash))
  }

  /** A pin holds: the template has text and its own hash, the tree its own. */
  ghost predicate PinHolds(h: Hashes, c: ContractInput) {
    !h.blank(c.sourceTemplate) && c == ContractInput(c.sourceTemplate, h.sha(c.sourceTemplate), c.tree, h.shaBytes(c.tree))
  }

  /** Sources resolve exactly if all pins hold, the trees differ pairwise, both templates resolve and the
      tracker's has no placeholder; each source is filed under its own hash. */
  lemma SourcesExact(h: Hashes, input: Three<ContractInput>, trackerNft: Hex, dupNft: Hex, s: Sources)
    ensures var (hash, t, u, d) := (h.blake(input.unlock.tree), input.tracker, input.unlock, input.dup);
            var (unlock, dup) := (UnlockSource(u.sourceTemplate, trackerNft, dupNft),
                                  DupSource(d.sourceTemplate, trackerNft, hash));
            ResolveSources(h, input, trackerNft, dupNft) == Some(s) <==>
            && PinHolds(h, t) && PinHolds(h, u) && PinHolds(h, d)
            && t.tree != u.tree && t.tree != d.tree && u.tree != d.tree
            && unlock.Some? && dup.Some?
            && !Includes(t.sourceTemplate, TRACKER_NFT) && !Includes(t.sourceTemplate, DUP_NFT)
            && !Includes(t.sourceTemplate, UNLOCK_HASH)
            && s == Sources(
                 Three(Source(t.templateSha, h.sha(t.sourceTemplate), t.sourceTemplate, t.tree, t.treeSha),
                       Source(u.templateSha, h.sha(unlock.value), unlock.value, u.tree, u.treeSha),
                       Source(d.templateSha, h.sha(dup.value), dup.value, d.tree, d.treeSha)),
                 hash)
  {
    hide Includes, UnlockSource, DupSource;
  }

  lemma NftPlaceholdersHaveNoHex()
    ensures NoHex(TRACKER_NFT) && NoHex(DUP_NFT) && TRACKER_NFT != "" && DUP_NFT != ""
  {
  }

  lemma HashPlaceholderHasNoHex()
    ensures NoHex(UNLOCK_HASH) && UNLOCK_HASH != ""
  {
  }

  /** A DUP template resolves with one unlock hash if and only if it resolves with any other. */
  lemma DupResolvesForAnyHash(template: string, trackerNft: Hex, v: Hex, w: Hex)
    requires HexText(v) && HexText(w)
    ensures DupSource(template, trackerNft, v).Some? <==> DupSource(template, trackerNft, w).Some?
  {
    NftPlaceholdersHaveNoHex();
    HashPlaceholderHasNoHex();
    hide Includes, ReplaceAll, HexText, NoHex;
    var a: Replacements := [(TRACKER_NFT, trackerNft), (UNLOCK_HASH, v)];
    var b: Replacements := [(TRACKER_NFT, trackerNft), (UNLOCK_HASH, w)];
    FirstReplacement(template, a, b);
    var x := Replaced(template, a, 1);
    if x.Some? && Includes(x.value, UNLOCK_HASH) {
      SameLeftovers(x.value, UNLOCK_HASH, v, w, TRACKER_NFT);
      SameLeftovers(x.value, UNLOCK_HASH, v, w, DUP_NFT);
      SameLeftovers(x.value, UNLOCK_HASH, v, w, UNLOCK_HASH);
    }
  }

  lemma FirstReplacement(source: string, a: Replacements, b: Replacements)
    requires |a| >= 1 && |b| >= 1 && a[0] == b[0]
    ensures Replaced(source, a, 1) == Replaced(source, b, 1)
  {
    hide Includes, ReplaceAll;
    assert Replaced(source, a, 0) == Replaced(source, b, 0);
  }

  /** The resolved DUP source embeds the hash of the unlock tree it was resolved with. */
  lemma DupEmbedsUnlockHash(template: string, trackerNft: Hex, unlockHash: Hex)
    requires DupSource(template, trackerNft, unlockHash).Some?
    ensures Includes(DupSource(template, trackerNft, unlockHash).value, unlockHash)
  {
    hide Includes, Resolve;
    var reps: Replacements := [(TRACKER_NFT, trackerNft), (UNLOCK_HASH, unlockHash)];
    EmbedsLast(template, reps);
  }

  // ----- Templates that are two placeholders -----

  lemma {:induction false} PlaceholderAfterHex(v: string, q: string, w: string)
    requires NoHex(q) && q != "" && forall i :: 0 <= i < |v| ==> HexDigit(v[i])
    ensures ReplaceAll(v + q, q, w) == v + w
  {
    if v == "" {
      assert v + q == q && OccursAt(q, q, 0);
      assert ReplaceAll(q, q, w) == w + ReplaceAll("", q, w);
    } else {
      NoPrefix(v, q, q);
      assert (v + q)[1..] == v[1..] + q;
      PlaceholderAfterHex(v[1..], q, w);
      assert ReplaceAll(v + q, q, w) == [v[0]] + (v[1..] + w);
    }
  }

  lemma HexIncludesNone(v: string, q: string)
    requires HexText(v) && NoHex(q) && q != ""
    ensures !Includes(v, q)
  {
    IncludesAfterHex(v, "", q);
    assert v + "" == v;
  }

  lemma PairReplaced(p: string, q: string, v: string, w: string)
    requires p != "" && q != "" && NoHex(q) && !Includes(q, p) && HexText(v) && HexText(w)
    ensures var reps: Replacements := [(p, v), (q, w)];
            Replaced(p + q, reps, 2) == Some(v + w)
  {
    var reps: Replacements := [(p, v), (q, w)];
    assert Replaced(p + q, reps, 0) == Some(p + q);
    assert OccursAt(p + q, p, 0) && (p + q)[|p|..] == q;
    NothingToReplace(q, p, v);
    assert Replaced(p + q, reps, 1) == Some(v + q);
    assert OccursAt(v + q, q, |v|);
    PlaceholderAfterHex(v, q, w);
  }

  lemma UnlockPair(trackerNft: Hex, dupNft: Hex)
    requires HexText(trackerNft) && HexText(dupNft)
    ensures UnlockSource(TRACKER_NFT + DUP_NFT, trackerNft, dupNft) == Some(trackerNft + dupNft)
  {
    NftPlaceholdersHaveNoHex();
    assert !Includes(DUP_NFT, TRACKER_NFT) by {
      assert |DUP_NFT| < |TRACKER_NFT|;
    }
    PairResolved(TRACKER_NFT, DUP_NFT, trackerNft, dupNft);
  }

  lemma DupPair(trackerNft: Hex, unlockHash: Hex)
    requires HexText(trackerNft) && HexText(unlockHash)
    ensures DupSource(TRACKER_NFT + UNLOCK_HASH, trackerNft, unlockHash) == Some(trackerNft + unlockHash)
  {
    HashPlaceholderHasNoHex();
    HashHoldsNoNft();
    PairResolved(TRACKER_NFT, UNLOCK_HASH, trackerNft, unlockHash);
  }

  /** The second letter of the tracker placeholder occurs too late in the hash placeholder. */
  lemma HashHoldsNoNft()
    ensures !Includes(UNLOCK_HASH, TRACKER_NFT)
  {
    forall i: nat | i + |TRACKER_NFT| <= |UNLOCK_HASH|
      ensures !OccursAt(UNLOCK_HASH, TRACKER_NFT, i)
    {
      assert UNLOCK_HASH[i..i + |TRACKER_NFT|][1] == UNLOCK_HASH[i + 1] != TRACKER_NFT[1];
    }
  }

  lemma PairResolved(p: string, q: string, v: string, w: string)
    requires p != "" && q != "" && NoHex(q) && !Includes(q, p) && HexText(v) && HexText(w)
    ensures var reps: Replacements := [(p, v), (q, w)];
            Resolve(p + q, reps) == Some(v + w)
  {
    PairReplaced(p, q, v, w);
    NftPlaceholdersHaveNoHex();
    HashPlaceholderHasNoHex();
    assert HexText(v + w);
    HexIncludesNone(v + w, TRACKER_NFT);
    HexIncludesNone(v + w, DUP_NFT);
    HexIncludesNone(v + w, UNLOCK_HASH);
  }
}
