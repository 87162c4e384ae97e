/**
  The three-pass derivation of the initial contract binding: the DUP contract embeds the hash
  of the compiled unlock tree, so sources are resolved with the trees of the pass before until
  a fixed point is reached; and the validator that rechecks a report.
 */
module InitialBinding {
  import opened ContractSources
  import opened Prelude

  datatype Template = Template(source: string, sha: Hex)

  type Templates = Three<Template>

  type Trees = Three<Hex>

  const SEED_TREES: Trees := Three("1000", "1001", "1002")

  // ----- Compiler -----

  /** An observed compilation of one contract. */
  datatype Observed = Observed(role: Role, sourceSha: Hex, tree: Hex, treeSha: Hex)

  datatype CompilerRun = CompilerRun(identity: string, contracts: Three<Option<Observed>>)

  /** A compiler may answer differently on each pass; None: it fails. */
  type Compiler = (nat, Sources) -> Option<CompilerRun>

  /** Digests and format checks of other components. */
  datatype Env = Env(
    hashes: Hashes, identityOk: string -> bool, identityDigest: string -> Hex, inputDigest: Input -> Hex,
    reportDigest: Report -> Hex, fundingOk: Funding -> bool)

  /** Whole bytes of hex. */
  predicate LowerHex(s: string) {
    HexText(s) && |s| % 2 == 0
  }

  /** canonicalId */
  predicate CanonicalId(s: string) {
    HexText(s) && |s| == 64
  }

  // ----- Reports -----

  datatype Request = Request(environment: string, trackerFundingBoxId: Hex, dupVaultFundingBoxId: Hex)

  datatype Funding = Funding(
    reportDigest: Hex, snapshotDigest: Hex, observedAt: string, nodeNetwork: string, tipHeight: int, tipId: Hex)

  /** What the input digest is taken of. */
  datatype Input = Input(
    environment: string, trackerNft: Hex, dupNft: Hex, funding: Option<Funding>, templateShas: Three<Hex>)

  datatype Resolved = Resolved(templateSha: Hex, sourceSha: Hex, tree: Hex, treeSha: Hex)

  datatype Provisioned = Provisioned(templateSha: Hex, tree: Hex, treeSha: Hex)

  /** digest: the report digest, empty in what it is taken of; grants: some authorization flag
      is set. */
  datatype Report = Report(
    digest: Hex, status: string, inputDigest: Hex, environment: string, trackerNft: Hex, dupNft: Hex,
    compiler: string, compilerDigest: Hex, passes: int, trackerStable: bool, unlockStable: bool, fixedPoint: bool,
    unlockHash: Hex, funding: Option<Funding>, resolved: Three<Resolved>, provisioned: Three<Provisioned>,
    grants: bool)

  predicate NonMainnet(environment: string) {
    environment in ["local", "development", "devnet", "patched-devnet", "testnet"]
  }

  predicate TemplateOk(h: Hashes, t: Template) {
    t.source != "" && h.sha(t.source) == t.sha
  }

  /** validateTemplates */
  predicate TemplatesOk(h: Hashes, t: Templates) {
    TemplateOk(h, t.tracker) && TemplateOk(h, t.unlock) && TemplateOk(h, t.dup)
  }

  function InputOf(h: Hashes, t: Template, tree: Hex): ContractInput {
    ContractInput(t.source, t.sha, tree, h.shaBytes(tree))
  }

  /** buildAuthenticatedV2ContractInputs */
  function BuildInputs(h: Hashes, t: Templates, trees: Trees): Three<ContractInput> {
    Three(InputOf(h, t.tracker, trees.tracker), InputOf(h, t.unlock, trees.unlock), InputOf(h, t.dup, trees.dup))
  }

  // ----- One pass -----

  datatype Pass = Compiled(resolved: Sources, run: CompilerRun, trees: Trees)

  /** The observation of a role is for the resolved source and carries the hash of its tree. */
  predicate ObservationOk(h: Hashes, resolved: Sources, run: CompilerRun, role: Role) {
    var observed := run.contracts.At(role);
    && observed.Some?
    && observed.value.role == role
    && observed.value.sourceSha == resolved.contracts.At(role).sourceSha
    && LowerHex(observed.value.tree)
    && h.shaBytes(observed.value.tree) == observed.value.treeSha
  }

  function CompilePass(
    env: Env, t: Templates, expected: Trees, trackerNft: Hex, dupNft: Hex, compile: Compiler, pass: nat): Option<Pass>
  {
    var h := env.hashes;
    var resolved := ResolveSources(h, BuildInputs(h, t, expected), trackerNft, dupNft);
    if resolved == None then None
    else
      var run := compile(pass, resolved.value);
      if run == None || !env.identityOk(run.value.identity) then None
      else if !ObservationOk(h, resolved.value, run.value, Tracker) || !ObservationOk(h, resolved.value, run.value, Unlock)
              || !ObservationOk(h, resolved.value, run.value, Dup)
      then None
      else
        var c := run.value.contracts;
        Some(Compiled(resolved.value, run.value, Three(c.tracker.value.tree, c.unlock.value.tree, c.dup.value.tree)))
  }

  lemma ObservationsExist(h: Hashes)
    ensures forall resolved, run, role :: ObservationOk(h, resolved, run, role) ==> run.contracts.At(role).Some?
  {
  }

  /** compilePass: the trees are filled in role by role. */
  method RunPass(
    env: Env, t: Templates, expected: Trees, trackerNft: Hex, dupNft: Hex, compile: Compiler, pass: nat)
    returns (r: Option<Pass>)
    ensures r == CompilePass(env, t, expected, trackerNft, dupNft, compile, pass)
  {
    ObservationsExist(env.hashes);
    hide ResolveSources, BuildInputs, ObservationOk;
    var h := env.hashes;
    var resolved := ResolveSources(h, BuildInputs(h, t, expected), trackerNft, dupNft);
    if resolved == None {
      return None;
    }
    var run := compile(pass, resolved.value);
    if run == None || !env.identityOk(run.value.identity) {
      return None;
    }
    var roles := [Tracker, Unlock, Dup];
    var trees: map<Role, Hex> := map[];
    for i := 0 to |roles|
      invariant trees.Keys == set role | role in roles[..i]
      invariant forall k :: 0 <= k < i ==> ObservationOk(h, resolved.value, run.value, roles[k])
      invariant forall k :: 0 <= k < i ==> trees[roles[k]] == run.value.contracts.At(roles[k]).value.tree
    {
      var role := roles[i];
      if !ObservationOk(h, resolved.value, run.value, role) {
        return None;
      }
      trees := trees[role := run.value.contracts.At(role).value.tree];
    }
    assert ObservationOk(h, resolved.value, run.value, roles[0]) && trees[roles[0]] == trees[Tracker];
    assert ObservationOk(h, resolved.value, run.value, roles[1]) && trees[roles[1]] == trees[Unlock];
    assert ObservationOk(h, resolved.value, run.value, roles[2]) && trees[roles[2]] == trees[Dup];
    return Some(Compiled(resolved.value, run.value, Three(trees[Tracker], trees[Unlock], trees[Dup])));
  }

  /** Whole bytes, or 32 bytes, of lower-case hex. */
  lemma HexTests(s: string)
    ensures LowerHex(s) <==> s != "" && |s| % 2 == 0 && forall i :: 0 <= i < |s| ==> s[i] in "0123456789abcdef"
    ensures CanonicalId(s) <==> |s| == 64 && forall i :: 0 <= i < |s| ==> s[i] in "0123456789abcdef"
  {
    forall i | 0 <= i < |s|
      ensures HexDigit(s[i]) <==> s[i] in "0123456789abcdef"
    {
      OneHexDigit(s[i]);
    }
  }

  lemma OneHexDigit(c: char)
    ensures HexDigit(c) <==> c in "0123456789abcdef"
  {
    var digits := "0123456789abcdef";
    if '0' <= c <= '9' {
      assert digits[c as int - '0' as int] == c;
    } else if 'a' <= c <= 'f' {
      assert digits[10 + c as int - 'a' as int] == c;
    }
  }

  /** A pass succeeds exactly if the sources resolve and a known compiler reports, for each role and its very
      source, a tree of whole bytes with its hash. */
  lemma PassExact(
    env: Env, t: Templates, expected: Trees, trackerNft: Hex, dupNft: Hex, compile: Compiler, pass: nat, p: Pass)
    ensures CompilePass(env, t, expected, trackerNft, dupNft, compile, pass) == Some(p) <==>
            && ResolveSources(env.hashes, BuildInputs(env.hashes, t, expected), trackerNft, dupNft) == Some(p.resolved)
            && compile(pass, p.resolved) == Some(p.run)
            && env.identityOk(p.run.identity)
            && var (c, s) := (p.run.contracts, p.resolved.contracts);
            && c.tracker == Reported(env.hashes, Tracker, s.tracker, p.trees.tracker)
            && c.unlock == Reported(env.hashes, Unlock, s.unlock, p.trees.unlock)
            && c.dup == Reported(env.hashes, Dup, s.dup, p.trees.dup)
            && LowerHex(p.trees.tracker) && LowerHex(p.trees.unlock) && LowerHex(p.trees.dup)
  {
    hide ResolveSources, BuildInputs, LowerHex;
  }

  function Reported(h: Hashes, role: Role, s: Source, tree: Hex): Option<Observed> {
    Some(Observed(role, s.sourceSha, tree, h.shaBytes(tree)))
  }

  // ----- Derivation -----

  function SourceShas(s: Sources): Three<Hex> {
    Three(s.contracts.tracker.sourceSha, s.contracts.unlock.sourceSha, s.contracts.dup.sourceSha)
  }

  predicate RequestOk(env: Env, t: Templates, request: Request, funding: Option<Funding>) {
    && NonMainnet(request.environment)
    && CanonicalId(request.trackerFundingBoxId) && CanonicalId(request.dupVaultFundingBoxId)
    && request.trackerFundingBoxId != request.dupVaultFundingBoxId
    && (funding.Some? ==> env.fundingOk(funding.value))
    && TemplatesOk(env.hashes, t)
  }

  /** The three passes: the last one, if they settle. */
  function ThreePasses(env: Env, t: Templates, seeds: Trees, trackerNft: Hex, dupNft: Hex, compile: Compiler)
    : Option<(Pass, Pass)>
  {
    var first := CompilePass(env, t, seeds, trackerNft, dupNft, compile, 1);
    if first == None then None
    else
      var second := CompilePass(env, t, first.value.trees, trackerNft, dupNft, compile, 2);
      if second == None || first.value.trees.tracker != second.value.trees.tracker
         || first.value.trees.unlock != second.value.trees.unlock
      then None
      else
        var third := CompilePass(env, t, second.value.trees, trackerNft, dupNft, compile, 3);
        if third == None then None
        else if env.identityDigest(second.value.run.identity) != env.identityDigest(first.value.run.identity)
                || env.identityDigest(third.value.run.identity) != env.identityDigest(first.value.run.identity)
        then None
        else if second.value.trees != third.value.trees
                || SourceShas(second.value.resolved) != SourceShas(third.value.resolved)
        then None
        else if !DistinctTrees(third.value.trees) then None
        else Some((first.value, third.value))
  }

  function ResolvedOf(s: Source, tree: Hex, o: Observed): Resolved {
    Resolved(s.templateSha, s.sourceSha, tree, o.treeSha)
  }

  function ProvisionedOf(s: Source, tree: Hex, o: Observed): Provisioned {
    Provisioned(s.templateSha, tree, o.treeSha)
  }

  function TemplateShas(t: Templates): Three<Hex> {
    Three(t.tracker.sha, t.unlock.sha, t.dup.sha)
  }

  /** The report of settled passes. */
  function ReportOf(env: Env, t: Templates, request: Request, funding: Option<Funding>, first: Pass, third: Pass): Report
    requires third.run.contracts.tracker.Some? && third.run.contracts.unlock.Some? && third.run.contracts.dup.Some?
  {
    var (s, trees, c) := (third.resolved.contracts, third.trees, third.run.contracts);
    var report := Report(
      "", "DERIVED",
      env.inputDigest(Input(request.environment, request.trackerFundingBoxId, request.dupVaultFundingBoxId, funding,
                            TemplateShas(t))),
      request.environment, request.trackerFundingBoxId, request.dupVaultFundingBoxId,
      first.run.identity, env.identityDigest(first.run.identity), 3, true, true, true,
      third.resolved.unlockHash, funding,
      Three(ResolvedOf(s.tracker, trees.tracker, c.tracker.value), ResolvedOf(s.unlock, trees.unlock, c.unlock.value),
            ResolvedOf(s.dup, trees.dup, c.dup.value)),
      Three(ProvisionedOf(s.tracker, trees.tracker, c.tracker.value),
            ProvisionedOf(s.unlock, trees.unlock, c.unlock.value), ProvisionedOf(s.dup, trees.dup, c.dup.value)),
      false);
    report.(digest := env.reportDigest(report))
  }

  /** deriveAuthenticatedV2InitialBindingInternal */
  function Derive(
    env: Env, t: Templates, request: Request, funding: Option<Funding>, compile: Compiler, seeds: Trees): Option<Report>
  {
    if !RequestOk(env, t, request, funding) then None
    else
      var passes := ThreePasses(env, t, seeds, request.trackerFundingBoxId, request.dupVaultFundingBoxId, compile);
      if passes == None then None
      else Some(ReportOf(env, t, request, funding, passes.value.0, passes.value.1))
  }

  /** A request is taken exactly for a sandboxed environment, two different canonical ids, a valid funding
      observation if there is one, and templates with text under their own hashes. */
  lemma RequestIff(env: Env, t: Templates, request: Request, funding: Option<Funding>)
    ensures var h := env.hashes;
            RequestOk(env, t, request, funding) <==>
            && Sandboxed(request.environment)
            && CanonicalId(request.trackerFundingBoxId) && CanonicalId(request.dupVaultFundingBoxId)
            && request.trackerFundingBoxId != request.dupVaultFundingBoxId
            && (funding.Some? ==> env.fundingOk(funding.value))
            && t.tracker == Template(t.tracker.source, h.sha(t.tracker.source)) && t.tracker.source != ""
            && t.unlock == Template(t.unlock.source, h.sha(t.unlock.source)) && t.unlock.source != ""
            && t.dup == Template(t.dup.source, h.sha(t.dup.source)) && t.dup.source != ""
  {
    SandboxedIs(request.environment);
    hide NonMainnet, Sandboxed, CanonicalId;
  }

  /** Pass 1 from the seeds, each later pass from the trees of the one before; tracker and unlock tree, and the
      compiler, are the same in all three, and the last two agree on all trees and sources. */
  ghost predicate Settled(
    env: Env, t: Templates, seeds: Trees, trackerNft: Hex, dupNft: Hex, compile: Compiler, first: Pass, second: Pass,
    third: Pass)
  {
    && CompilePass(env, t, seeds, trackerNft, dupNft, compile, 1) == Some(first)
    && CompilePass(env, t, first.trees, trackerNft, dupNft, compile, 2) == Some(second)
    && CompilePass(env, t, second.trees, trackerNft, dupNft, compile, 3) == Some(third)
    && first.trees.tracker == second.trees.tracker && first.trees.unlock == second.trees.unlock
    && second.trees == third.trees
    && env.identityDigest(first.run.identity) == env.identityDigest(second.run.identity)
       == env.identityDigest(third.run.identity)
    && second.resolved.contracts.tracker.sourceSha == third.resolved.contracts.tracker.sourceSha
    && second.resolved.contracts.unlock.sourceSha == third.resolved.contracts.unlock.sourceSha
    && second.resolved.contracts.dup.sourceSha == third.resolved.contracts.dup.sourceSha
    && third.trees.tracker != third.trees.unlock && third.trees.tracker != third.trees.dup
    && third.trees.unlock != third.trees.dup
  }

  /** For any compiler, a binding is derived exactly if the request is taken and three passes settle. */
  lemma SettlesIff(
    env: Env, t: Templates, request: Request, funding: Option<Funding>, compile: Compiler, seeds: Trees)
    ensures var (trackerNft, dupNft) := (request.trackerFundingBoxId, request.dupVaultFundingBoxId);
            Derive(env, t, request, funding, compile, seeds).Some? <==>
            && RequestOk(env, t, request, funding)
            && exists first, second, third ::
                 Settled(env, t, seeds, trackerNft, dupNft, compile, first, second, third)
  {
    hide CompilePass, RequestOk, ReportOf;
    var (trackerNft, dupNft) := (request.trackerFundingBoxId, request.dupVaultFundingBoxId);
    var passes := ThreePasses(env, t, seeds, trackerNft, dupNft, compile);
    if passes.Some? {
      var first := CompilePass(env, t, seeds, trackerNft, dupNft, compile, 1).value;
      var second := CompilePass(env, t, first.trees, trackerNft, dupNft, compile, 2).value;
      var third := CompilePass(env, t, second.trees, trackerNft, dupNft, compile, 3).value;
      assert Settled(env, t, seeds, trackerNft, dupNft, compile, first, second, third);
    }
  }

  // ----- Validator -----

  /** The trees of a report with their pinned hashes. */
  predicate HashesHold(h: Hashes, r: Report, role: Role) {
    && LowerHex(r.resolved.At(role).tree)
    && LowerHex(r.provisioned.At(role).tree)
    && h.shaBytes(r.resolved.At(role).tree) == r.resolved.At(role).treeSha
    && h.shaBytes(r.provisioned.At(role).tree) == r.provisioned.At(role).treeSha
  }

  function ReportInput(t: Templates, r: Report, role: Role): ContractInput {
    var p := r.provisioned.At(role);
    ContractInput(t.At(role).source, p.templateSha, p.tree, p.treeSha)
  }

  function ReportInputs(t: Templates, r: Report): Three<ContractInput> {
    Three(ReportInput(t, r, Tracker), ReportInput(t, r, Unlock), ReportInput(t, r, Dup))
  }

  predicate ContractRecomputes(t: Templates, r: Report, s: Sources, role: Role) {
    var c := s.contracts.At(role);
    && r.resolved.At(role) == Resolved(c.templateSha, c.sourceSha, c.tree, c.treeSha)
    && r.provisioned.At(role) == Provisioned(t.At(role).sha, c.tree, c.treeSha)
  }

  /** validateAuthenticatedV2InitialBindingReport accepts. */
  predicate Validates(env: Env, t: Templates, request: Request, funding: Funding, r: Report) {
    && r.status == "DERIVED"
    && env.reportDigest(r.(digest := "")) == r.digest
    && NonMainnet(r.environment)
    && r.environment == request.environment
    && CanonicalId(r.trackerNft) && CanonicalId(r.dupNft)
    && r.trackerNft == request.trackerFundingBoxId
    && r.dupNft == request.dupVaultFundingBoxId
    && env.identityOk(r.compiler)
    && env.identityDigest(r.compiler) == r.compilerDigest
    && r.passes == 3 && r.trackerStable && r.unlockStable && r.fixedPoint
    && r.funding == Some(funding)
    && TemplatesOk(env.hashes, t)
    && HashesHold(env.hashes, r, Tracker) && HashesHold(env.hashes, r, Unlock) && HashesHold(env.hashes, r, Dup)
    && var s := ResolveSources(env.hashes, ReportInputs(t, r), r.trackerNft, r.dupNft);
    && s.Some?
    && ContractRecomputes(t, r, s.value, Tracker) && ContractRecomputes(t, r, s.value, Unlock)
    && ContractRecomputes(t, r, s.value, Dup)
    && s.value.unlockHash == r.unlockHash
    && r.inputDigest == env.inputDigest(Input(r.environment, r.trackerNft, r.dupNft, Some(funding), TemplateShas(t)))
    && !r.grants
  }

  /** A report is derived or accepted for the five environments only. */
  predicate Sandboxed(environment: string) {
    || environment == "local" || environment == "development" || environment == "devnet"
    || environment == "patched-devnet" || environment == "testnet"
  }

  lemma OnlySandboxed(
    env: Env, t: Templates, request: Request, funding: Option<Funding>, compile: Compiler, seeds: Trees, r: Report)
    ensures Derive(env, t, request, funding, compile, seeds).Some? ==>
              Sandboxed(request.environment)
              && Derive(env, t, request, funding, compile, seeds).value.environment == request.environment
    ensures funding.Some? && Validates(env, t, request, funding.value, r) ==> Sandboxed(r.environment)
  {
    hide ThreePasses, ResolveSources, TemplatesOk, CanonicalId;
    SandboxedIs(request.environment);
    SandboxedIs(r.environment);
  }

  lemma SandboxedIs(environment: string)
    ensures NonMainnet(environment) <==> Sandboxed(environment)
  {
  }

  // ----- Any compiler: what a report proves -----

  /** The DUP source of the report is the template resolved with, and embedding, the hash of the
      reported unlock tree. */
  ghost predicate EmbedsUnlock(h: Hashes, t: Templates, r: Report) {
    var hash := h.blake(r.resolved.unlock.tree);
    var source := DupSource(t.dup.source, r.trackerNft, hash);
    && source.Some?
    && Includes(source.value, hash)
    && h.sha(source.value) == r.resolved.dup.sourceSha
    && r.unlockHash == hash
    && r.provisioned.unlock.tree == r.resolved.unlock.tree
  }

  lemma ResolvedShape(h: Hashes, input: Three<ContractInput>, trackerNft: Hex, dupNft: Hex)
    requires ResolveSources(h, input, trackerNft, dupNft).Some?
    ensures var s := ResolveSources(h, input, trackerNft, dupNft).value;
            && s.unlockHash == h.blake(input.unlock.tree)
            && DupSource(input.dup.sourceTemplate, trackerNft, s.unlockHash).Some?
            && s.contracts.dup.sourceSha
               == h.sha(DupSource(input.dup.sourceTemplate, trackerNft, s.unlockHash).value)
            && (forall role :: s.contracts.At(role).tree == input.At(role).tree
                               && s.contracts.At(role).treeSha == input.At(role).treeSha
                               && s.contracts.At(role).templateSha == input.At(role).templateSha)
            && DistinctTrees(Three(input.tracker.tree, input.unlock.tree, input.dup.tree))
  {
    hide DupSource, UnlockSource, Unresolved;
  }

  /** A report the validator accepts embeds the hash of its unlock tree, in three distinct trees. */
  lemma AcceptedEmbedsUnlock(env: Env, t: Templates, request: Request, funding: Funding, r: Report)
    requires Validates(env, t, request, funding, r)
    ensures EmbedsUnlock(env.hashes, t, r)
    ensures DistinctTrees(Three(r.resolved.tracker.tree, r.resolved.unlock.tree, r.resolved.dup.tree))
  {
    hide Includes, DupSource, ResolveSources, NonMainnet, LowerHex;
    var h := env.hashes;
    ResolvedShape(h, ReportInputs(t, r), r.trackerNft, r.dupNft);
    var s := ResolveSources(h, ReportInputs(t, r), r.trackerNft, r.dupNft).value;
    assert s.contracts.At(Unlock).tree == ReportInputs(t, r).At(Unlock).tree;
    assert s.contracts.At(Tracker).tree == ReportInputs(t, r).At(Tracker).tree;
    assert s.contracts.At(Dup).tree == ReportInputs(t, r).At(Dup).tree;
    DupEmbedsUnlockHash(t.dup.source, r.trackerNft, s.unlockHash);
  }

  /** Settled passes end in a fixed point: sources resolved with the final trees compile to the
      final trees. */
  lemma PassesSettle(env: Env, t: Templates, seeds: Trees, trackerNft: Hex, dupNft: Hex, compile: Compiler)
    requires ThreePasses(env, t, seeds, trackerNft, dupNft, compile).Some?
    ensures var (first, third) := ThreePasses(env, t, seeds, trackerNft, dupNft, compile).value;
            && CompilePass(env, t, third.trees, trackerNft, dupNft, compile, 3) == Some(third)
            && DistinctTrees(third.trees)
            && env.identityOk(first.run.identity)
  {
    hide CompilePass;
    var first := CompilePass(env, t, seeds, trackerNft, dupNft, compile, 1);
    PassChecked(env, t, seeds, trackerNft, dupNft, compile, 1);
  }

  lemma PassChecked(
    env: Env, t: Templates, expected: Trees, trackerNft: Hex, dupNft: Hex, compile: Compiler, pass: nat)
    requires CompilePass(env, t, expected, trackerNft, dupNft, compile, pass).Some?
    ensures var p := CompilePass(env, t, expected, trackerNft, dupNft, compile, pass).value;
            && ResolveSources(env.hashes, BuildInputs(env.hashes, t, expected), trackerNft, dupNft) == Some(p.resolved)
            && compile(pass, p.resolved) == Some(p.run)
            && env.identityOk(p.run.identity)
            && p.run.contracts.tracker.Some? && p.run.contracts.unlock.Some? && p.run.contracts.dup.Some?
            && (forall role :: ObservationOk(env.hashes, p.resolved, p.run, role)
                               && p.trees.At(role) == p.run.contracts.At(role).value.tree)
  {
    hide ResolveSources, BuildInputs;
  }

  /** Every report derived from a valid funding observation is accepted by the validator. */
  lemma DerivedValidates(
    env: Env, t: Templates, request: Request, funding: Funding, compile: Compiler, seeds: Trees)
    requires Derive(env, t, request, Some(funding), compile, seeds).Some?
    ensures Validates(env, t, request, funding, Derive(env, t, request, Some(funding), compile, seeds).value)
  {
    hide ThreePasses, CompilePass, ResolveSources, NonMainnet, LowerHex, TemplateOk;
    var (trackerNft, dupNft) := (request.trackerFundingBoxId, request.dupVaultFundingBoxId);
    var r := Derive(env, t, request, Some(funding), compile, seeds).value;
    PassesSettle(env, t, seeds, trackerNft, dupNft, compile);
    var (first, third) := ThreePasses(env, t, seeds, trackerNft, dupNft, compile).value;
    PassChecked(env, t, third.trees, trackerNft, dupNft, compile, 3);
    SameInputs(env, t, request, Some(funding), first, third);
    ReportRecomputes(env, t, request, Some(funding), first, third);
  }

  /** The validator's inputs are the inputs of the last pass. */
  lemma SameInputs(env: Env, t: Templates, request: Request, funding: Option<Funding>, first: Pass, third: Pass)
    requires third.run.contracts.tracker.Some? && third.run.contracts.unlock.Some? && third.run.contracts.dup.Some?
    requires forall role :: ObservationOk(env.hashes, third.resolved, third.run, role)
                            && third.trees.At(role) == third.run.contracts.At(role).value.tree
    requires ResolveSources(env.hashes, BuildInputs(env.hashes, t, third.trees), request.trackerFundingBoxId,
                            request.dupVaultFundingBoxId) == Some(third.resolved)
    ensures ReportInputs(t, ReportOf(env, t, request, funding, first, third))
            == BuildInputs(env.hashes, t, third.trees)
  {
    hide ResolveSources, LowerHex;
    ResolvedShape(env.hashes, BuildInputs(env.hashes, t, third.trees), request.trackerFundingBoxId,
                  request.dupVaultFundingBoxId);
    var s := third.resolved.contracts;
    assert s.At(Tracker).templateSha == t.tracker.sha;
    assert s.At(Unlock).templateSha == t.unlock.sha;
    assert s.At(Dup).templateSha == t.dup.sha;
    assert ObservationOk(env.hashes, third.resolved, third.run, Tracker);
    assert ObservationOk(env.hashes, third.resolved, third.run, Unlock);
    assert ObservationOk(env.hashes, third.resolved, third.run, Dup);
    assert third.trees.At(Tracker) == third.trees.tracker;
    assert third.trees.At(Unlock) == third.trees.unlock;
    assert third.trees.At(Dup) == third.trees.dup;
  }

  lemma ReportRecomputes(env: Env, t: Templates, request: Request, funding: Option<Funding>, first: Pass, third: Pass)
    requires third.run.contracts.tracker.Some? && third.run.contracts.unlock.Some? && third.run.contracts.dup.Some?
    requires forall role :: ObservationOk(env.hashes, third.resolved, third.run, role)
                            && third.trees.At(role) == third.run.contracts.At(role).value.tree
    requires ResolveSources(env.hashes, BuildInputs(env.hashes, t, third.trees), request.trackerFundingBoxId,
                            request.dupVaultFundingBoxId) == Some(third.resolved)
    ensures var r := ReportOf(env, t, request, funding, first, third);
            forall role :: HashesHold(env.hashes, r, role) && ContractRecomputes(t, r, third.resolved, role)
    ensures third.resolved.unlockHash == env.hashes.blake(third.trees.unlock)
  {
    hide ResolveSources, LowerHex;
    ResolvedShape(env.hashes, BuildInputs(env.hashes, t, third.trees), request.trackerFundingBoxId,
                  request.dupVaultFundingBoxId);
    var r := ReportOf(env, t, request, funding, first, third);
    forall role
      ensures HashesHold(env.hashes, r, role) && ContractRecomputes(t, r, third.resolved, role)
    {
      assert ObservationOk(env.hashes, third.resolved, third.run, role);
      assert third.resolved.contracts.At(role).tree == BuildInputs(env.hashes, t, third.trees).At(role).tree;
      match role
      case Tracker =>
      case Unlock =>
      case Dup =>
    }
  }

  /** For any compiler: the trees of a derived report are a fixed point of resolve-and-compile. */
  lemma DerivedIsFixedPoint(
    env: Env, t: Templates, request: Request, funding: Option<Funding>, compile: Compiler, seeds: Trees)
    requires Derive(env, t, request, funding, compile, seeds).Some?
    ensures var r := Derive(env, t, request, funding, compile, seeds).value;
            var trees := Three(r.resolved.tracker.tree, r.resolved.unlock.tree, r.resolved.dup.tree);
            var pass := CompilePass(env, t, trees, r.trackerNft, r.dupNft, compile, 3);
            && DistinctTrees(trees)
            && pass.Some? && pass.value.trees == trees
            && pass.value.resolved.unlockHash == r.unlockHash == env.hashes.blake(trees.unlock)
  {
    hide ThreePasses, CompilePass, ResolveSources, NonMainnet, LowerHex, TemplateOk;
    var (trackerNft, dupNft) := (request.trackerFundingBoxId, request.dupVaultFundingBoxId);
    PassesSettle(env, t, seeds, trackerNft, dupNft, compile);
    var (first, third) := ThreePasses(env, t, seeds, trackerNft, dupNft, compile).value;
    PassChecked(env, t, third.trees, trackerNft, dupNft, compile, 3);
    ReportRecomputes(env, t, request, funding, first, third);
    assert Three(third.trees.tracker, third.trees.unlock, third.trees.dup) == third.trees;
  }

  // ----- The one report for given trees -----

  /** What a report says of one contract. */
  function ContractReport(h: Hashes, t: Template, source: string, tree: Hex): (Resolved, Provisioned) {
    (Resolved(t.sha, h.sha(source), tree, h.shaBytes(tree)), Provisioned(t.sha, tree, h.shaBytes(tree)))
  }

  /** The report that belongs to a request, a compiler and its trees. */
  function ReportFor(
    env: Env, t: Templates, request: Request, funding: Option<Funding>, identity: string, trees: Trees,
    unlockSource: string, dupSource: string): Report
  {
    var h := env.hashes;
    var (tracker, unlock, dup) := (ContractReport(h, t.tracker, t.tracker.source, trees.tracker),
                                   ContractReport(h, t.unlock, unlockSource, trees.unlock),
                                   ContractReport(h, t.dup, dupSource, trees.dup));
    var content := Report(
      "", "DERIVED",
      env.inputDigest(Input(request.environment, request.trackerFundingBoxId, request.dupVaultFundingBoxId, funding,
                            Three(t.tracker.sha, t.unlock.sha, t.dup.sha))),
      request.environment, request.trackerFundingBoxId, request.dupVaultFundingBoxId, identity,
      env.identityDigest(identity), 3, true, true, true, h.blake(trees.unlock), funding,
      Three(tracker.0, unlock.0, dup.0), Three(tracker.1, unlock.1, dup.1), false);
    content.(digest := env.reportDigest(content))
  }

  function ProvisionedTrees(r: Report): Trees {
    Three(r.provisioned.tracker.tree, r.provisioned.unlock.tree, r.provisioned.dup.tree)
  }

  /** A template with text, filed under its own hash. */
  predicate Filed(h: Hashes, t: Template) {
    t.source != "" && !h.blank(t.source) && t.sha == h.sha(t.source)
  }

  /** Three distinct trees of whole bytes. */
  predicate ThreeTrees(trees: Trees) {
    LowerHex(trees.tracker) && LowerHex(trees.unlock) && LowerHex(trees.dup) && DistinctTrees(trees)
  }

  /** Main result: the validator accepts exactly the reports that belong to the request, the funding
      observation, a known compiler and three distinct trees whose sources resolve. */
  lemma ValidatesExact(env: Env, t: Templates, request: Request, funding: Funding, r: Report)
    ensures var (h, trees) := (env.hashes, ProvisionedTrees(r));
            var (trackerNft, dupNft) := (request.trackerFundingBoxId, request.dupVaultFundingBoxId);
            var (unlock, dup) := (UnlockSource(t.unlock.source, trackerNft, dupNft),
                                  DupSource(t.dup.source, trackerNft, h.blake(trees.unlock)));
            Validates(env, t, request, funding, r) <==>
            && Sandboxed(request.environment) && CanonicalId(trackerNft) && CanonicalId(dupNft)
            && Filed(h, t.tracker) && Filed(h, t.unlock) && Filed(h, t.dup)
            && env.identityOk(r.compiler) && ThreeTrees(trees)
            && !Unresolved(t.tracker.source) && unlock.Some? && dup.Some?
            && r == ReportFor(env, t, request, Some(funding), r.compiler, trees, unlock.value, dup.value)
  {
    SandboxedIs(request.environment);
    hide NonMainnet, Sandboxed, CanonicalId, LowerHex, Unresolved, UnlockSource, DupSource;
    var (h, trees) := (env.hashes, ProvisionedTrees(r));
    var (trackerNft, dupNft) := (request.trackerFundingBoxId, request.dupVaultFundingBoxId);
    var (unlock, dup) := (UnlockSource(t.unlock.source, trackerNft, dupNft),
                          DupSource(t.dup.source, trackerNft, h.blake(trees.unlock)));
    if Validates(env, t, request, funding, r) {
      var report := ReportFor(env, t, request, Some(funding), r.compiler, trees, unlock.value, dup.value);
      assert r.resolved == report.resolved;
      assert r.provisioned == report.provisioned;
      assert r.(digest := "") == report.(digest := "");
    }
  }

  // ----- Compilers that are functions of each role's source -----

  /** The tree of a role depends on its source text alone, and the compiler always runs. */
  ghost predicate CompilesBySource(env: Env, compile: Compiler, tree: (Role, string) -> Hex, identity: string) {
    && env.identityOk(identity)
    && (forall role, source :: LowerHex(tree(role, source)))
    && (forall pass, s :: compile(pass, s) == Some(CompilerRun(identity, Compilation(env.hashes, tree, s))))
  }

  function ObservedAt(h: Hashes, tree: (Role, string) -> Hex, s: Source, role: Role): Option<Observed> {
    Some(Observed(role, s.sourceSha, tree(role, s.source), h.shaBytes(tree(role, s.source))))
  }

  function Compilation(h: Hashes, tree: (Role, string) -> Hex, s: Sources): Three<Option<Observed>> {
    Three(ObservedAt(h, tree, s.contracts.tracker, Tracker), ObservedAt(h, tree, s.contracts.unlock, Unlock),
          ObservedAt(h, tree, s.contracts.dup, Dup))
  }

  /** The templates have what resolution asks of them, whatever the trees. */
  predicate Resolvable(env: Env, t: Templates, trackerNft: Hex, dupNft: Hex) {
    && !env.hashes.blank(t.tracker.source) && !env.hashes.blank(t.unlock.source) && !env.hashes.blank(t.dup.source)
    && !Unresolved(t.tracker.source)
    && UnlockSource(t.unlock.source, trackerNft, dupNft).Some?
  }

  /** The DUP source for an unlock tree, if its template resolves with that tree's hash. */
  function DupFor(env: Env, t: Templates, trackerNft: Hex, unlockTree: Hex): Option<string> {
    DupSource(t.dup.source, trackerNft, env.hashes.blake(unlockTree))
  }

  /** The trees of a pass that starts from the given unlock tree. */
  function TreesFrom(
    env: Env, t: Templates, trackerNft: Hex, dupNft: Hex, tree: (Role, string) -> Hex, unlockTree: Hex): Trees
    requires UnlockSource(t.unlock.source, trackerNft, dupNft).Some? && DupFor(env, t, trackerNft, unlockTree).Some?
  {
    Three(tree(Tracker, t.tracker.source), tree(Unlock, UnlockSource(t.unlock.source, trackerNft, dupNft).value),
          tree(Dup, DupFor(env, t, trackerNft, unlockTree).value))
  }

  /** A pass succeeds exactly when its starting trees differ and its templates resolve, and gives
      trees that depend on the starting unlock tree only. */
  lemma PassComputes(
    env: Env, t: Templates, expected: Trees, trackerNft: Hex, dupNft: Hex, compile: Compiler,
    tree: (Role, string) -> Hex, identity: string, pass: nat)
    requires CompilesBySource(env, compile, tree, identity) && TemplatesOk(env.hashes, t)
    ensures var p := CompilePass(env, t, expected, trackerNft, dupNft, compile, pass);
            && (p.Some? <==> Resolvable(env, t, trackerNft, dupNft) && DistinctTrees(expected)
                             && DupFor(env, t, trackerNft, expected.unlock).Some?)
            && (p.Some? ==>
                  && p.value.trees == TreesFrom(env, t, trackerNft, dupNft, tree, expected.unlock)
                  && p.value.run.identity == identity
                  && SourceShas(p.value.resolved)
                     == Three(env.hashes.sha(t.tracker.source),
                              env.hashes.sha(UnlockSource(t.unlock.source, trackerNft, dupNft).value),
                              env.hashes.sha(DupFor(env, t, trackerNft, expected.unlock).value)))
  {
    hide LowerHex, Unresolved, DupSource, UnlockSource;
  }

  /** No two trees coincide among the seeds, after the first pass, or at the end; and the DUP
      template resolves on the way. */
  ghost predicate NoCoincidence(
    env: Env, t: Templates, trackerNft: Hex, dupNft: Hex, tree: (Role, string) -> Hex, seeds: Trees)
    requires UnlockSource(t.unlock.source, trackerNft, dupNft).Some?
  {
    && DistinctTrees(seeds)
    && DupFor(env, t, trackerNft, seeds.unlock).Some?
    && var first := TreesFrom(env, t, trackerNft, dupNft, tree, seeds.unlock);
    && DistinctTrees(first)
    && DupFor(env, t, trackerNft, first.unlock).Some?
    && DistinctTrees(TreesFrom(env, t, trackerNft, dupNft, tree, first.unlock))
  }

  lemma DerivesIff(
    env: Env, t: Templates, request: Request, funding: Option<Funding>, compile: Compiler,
    tree: (Role, string) -> Hex, identity: string, seeds: Trees)
    requires CompilesBySource(env, compile, tree, identity)
    ensures var (trackerNft, dupNft) := (request.trackerFundingBoxId, request.dupVaultFundingBoxId);
            Derive(env, t, request, funding, compile, seeds).Some? <==>
            && RequestOk(env, t, request, funding)
            && Resolvable(env, t, trackerNft, dupNft)
            && NoCoincidence(env, t, trackerNft, dupNft, tree, seeds)
  {
    hide CompilePass, Resolvable, DistinctTrees, UnlockSource, DupFor, NonMainnet, CompilesBySource, ReportOf;
    var (trackerNft, dupNft) := (request.trackerFundingBoxId, request.dupVaultFundingBoxId);
    ResolvableUnlock(env, t, trackerNft, dupNft);
    if RequestOk(env, t, request, funding) {
      PassesCompute(env, t, seeds, trackerNft, dupNft, compile, tree, identity);
    }
  }

  /** The derivation succeeds exactly when the request and the templates are in order and no two
      trees coincide: the seeds, the trees of the first pass (whose DUP tree still embeds the
      hash of the seed unlock tree), and the final trees. */
  lemma DerivesUnlessTreesCoincide(
    env: Env, t: Templates, request: Request, funding: Option<Funding>, compile: Compiler,
    tree: (Role, string) -> Hex, identity: string, seeds: Trees)
    requires CompilesBySource(env, compile, tree, identity) && forall x :: HexText(env.hashes.blake(x))
    requires RequestOk(env, t, request, funding)
    requires Resolvable(env, t, request.trackerFundingBoxId, request.dupVaultFundingBoxId)
    requires DupFor(env, t, request.trackerFundingBoxId, seeds.unlock).Some?
    ensures var (trackerNft, dupNft) := (request.trackerFundingBoxId, request.dupVaultFundingBoxId);
            var first := TreesFrom(env, t, trackerNft, dupNft, tree, seeds.unlock);
            && DupFor(env, t, trackerNft, first.unlock).Some?
            && (Derive(env, t, request, funding, compile, seeds).Some? <==>
                && DistinctTrees(seeds)
                && DistinctTrees(first)
                && DistinctTrees(TreesFrom(env, t, trackerNft, dupNft, tree, first.unlock)))
  {
    DerivesIff(env, t, request, funding, compile, tree, identity, seeds);
    hide DupSource, Derive, RequestOk, CompilesBySource, DistinctTrees, UnlockSource, HexText;
    var (trackerNft, dupNft) := (request.trackerFundingBoxId, request.dupVaultFundingBoxId);
    var first := TreesFrom(env, t, trackerNft, dupNft, tree, seeds.unlock);
    DupResolvesForAnyHash(t.dup.source, trackerNft, env.hashes.blake(seeds.unlock), env.hashes.blake(first.unlock));
  }

  lemma PassesCompute(
    env: Env, t: Templates, seeds: Trees, trackerNft: Hex, dupNft: Hex, compile: Compiler,
    tree: (Role, string) -> Hex, identity: string)
    requires CompilesBySource(env, compile, tree, identity) && TemplatesOk(env.hashes, t)
    ensures var passes := ThreePasses(env, t, seeds, trackerNft, dupNft, compile);
            && (passes.Some? <==> Resolvable(env, t, trackerNft, dupNft)
                                  && UnlockSource(t.unlock.source, trackerNft, dupNft).Some?
                                  && NoCoincidence(env, t, trackerNft, dupNft, tree, seeds))
            && (passes.Some? ==>
                  && passes.value.0.run.identity == identity
                  && var unlock := tree(Unlock, UnlockSource(t.unlock.source, trackerNft, dupNft).value);
                  && DupFor(env, t, trackerNft, unlock).Some?
                  && CompilePass(env, t, TreesFrom(env, t, trackerNft, dupNft, tree, unlock), trackerNft, dupNft,
                                 compile, 3) == Some(passes.value.1))
  {
    ResolvableUnlock(env, t, trackerNft, dupNft);
    hide CompilePass, Resolvable, DistinctTrees, UnlockSource, DupFor, CompilesBySource, TemplatesOk;
    PassComputes(env, t, seeds, trackerNft, dupNft, compile, tree, identity, 1);
    var first := CompilePass(env, t, seeds, trackerNft, dupNft, compile, 1);
    if first.Some? {
      PassComputes(env, t, first.value.trees, trackerNft, dupNft, compile, tree, identity, 2);
      var second := CompilePass(env, t, first.value.trees, trackerNft, dupNft, compile, 2);
      if second.Some? {
        PassComputes(env, t, second.value.trees, trackerNft, dupNft, compile, tree, identity, 3);
      }
    }
  }

  lemma ResolvableUnlock(env: Env, t: Templates, trackerNft: Hex, dupNft: Hex)
    ensures Resolvable(env, t, trackerNft, dupNft) ==> UnlockSource(t.unlock.source, trackerNft, dupNft).Some?
  {
  }

  /** The seed trees leave no trace in the report. */
  lemma SeedsLeaveNoTrace(
    env: Env, t: Templates, request: Request, funding: Option<Funding>, compile: Compiler,
    tree: (Role, string) -> Hex, identity: string, seeds: Trees, others: Trees)
    requires CompilesBySource(env, compile, tree, identity)
    requires Derive(env, t, request, funding, compile, seeds).Some?
    requires Derive(env, t, request, funding, compile, others).Some?
    ensures Derive(env, t, request, funding, compile, seeds) == Derive(env, t, request, funding, compile, others)
  {
    hide CompilePass, Resolvable, DistinctTrees, UnlockSource, DupFor, NonMainnet, CompilesBySource, ThreePasses,
         NoCoincidence;
    var (trackerNft, dupNft) := (request.trackerFundingBoxId, request.dupVaultFundingBoxId);
    PassesCompute(env, t, seeds, trackerNft, dupNft, compile, tree, identity);
    PassesCompute(env, t, others, trackerNft, dupNft, compile, tree, identity);
  }

  // ----- The seeds decide whether a binding is found -----

  function SampleRequest(): Request {
    Request("devnet", seq(64, _ => 'a'), seq(64, _ => 'b'))
  }

  function SampleTemplate(h: Hashes, source: string): Template {
    Template(source, h.sha(source))
  }

  function SampleTemplates(h: Hashes): Templates {
    Three(SampleTemplate(h, "{ true }"), SampleTemplate(h, TRACKER_NFT + DUP_NFT),
          SampleTemplate(h, TRACKER_NFT + UNLOCK_HASH))
  }

  /** The DUP tree coincides with the unlock tree on the source with the hash of the seed unlock
      tree, and on no other. */
  function SampleTree(h: Hashes): (Role, string) -> Hex {
    (role: Role, source: string) =>
      match role
      case Tracker => "aa"
      case Unlock => "bb"
      case Dup => if source == SampleRequest().trackerFundingBoxId + h.blake(SEED_TREES.unlock) then "bb" else "cc"
  }

  function SampleCompile(h: Hashes, identity: string): Compiler {
    (pass: nat, s: Sources) => Some(CompilerRun(identity, Compilation(h, SampleTree(h), s)))
  }

  /** What is asked of the environment: hex hashes, a compiler identity and a text test that take
      the sample, and a hash that tells the seed unlock tree from the sample's. */
  ghost predicate Ordinary(env: Env, identity: string) {
    && env.identityOk(identity)
    && (forall tree :: HexText(env.hashes.blake(tree)))
    && (forall role :: !env.hashes.blank(SampleTemplates(env.hashes).At(role).source))
    && env.hashes.blake("bb") != env.hashes.blake(SEED_TREES.unlock)
  }

  /** In every ordinary environment there are a compiler that is a function of each role's source
      and a request and templates in order, for which the derivation fails from the relayer's seeds
      and succeeds from others, although the trees that would be reported are distinct either way. */
  lemma SeedsDecide(env: Env, identity: string, others: Trees)
    requires Ordinary(env, identity) && DistinctTrees(others)
    requires env.hashes.blake(others.unlock) != env.hashes.blake(SEED_TREES.unlock)
    ensures var (h, request) := (env.hashes, SampleRequest());
            var (trackerNft, dupNft) := (request.trackerFundingBoxId, request.dupVaultFundingBoxId);
            var (t, tree, compile) := (SampleTemplates(h), SampleTree(h), SampleCompile(h, identity));
            && CompilesBySource(env, compile, tree, identity)
            && DistinctTrees(SEED_TREES)
            && Derive(env, t, request, None, compile, SEED_TREES).None?
            && Derive(env, t, request, None, compile, others).Some?
            && UnlockSource(t.unlock.source, trackerNft, dupNft).Some?
            && var unlock := tree(Unlock, UnlockSource(t.unlock.source, trackerNft, dupNft).value);
            && DupFor(env, t, trackerNft, unlock).Some?
            && DistinctTrees(TreesFrom(env, t, trackerNft, dupNft, tree, unlock))
  {
    hide Derive, RequestOk, Resolvable, UnlockSource, DupFor, TreesFrom, NoCoincidence, CompilesBySource,
         SampleTree, SampleCompile, SampleTemplates, SampleRequest, DistinctTrees;
    var (h, request) := (env.hashes, SampleRequest());
    var (t, tree, compile) := (SampleTemplates(h), SampleTree(h), SampleCompile(h, identity));
    SeedsAreDistinct();
    SampleInOrder(env, identity);
    SampleCompilesBySource(env, identity);
    SampleTrees(env, identity, "bb");
    SampleCoincidence(env, identity, SEED_TREES);
    SampleCoincidence(env, identity, others);
    DerivesIff(env, t, request, None, compile, tree, identity, SEED_TREES);
    DerivesIff(env, t, request, None, compile, tree, identity, others);
  }

  lemma SeedsAreDistinct()
    ensures DistinctTrees(SEED_TREES)
  {
    assert SEED_TREES.tracker[3] != SEED_TREES.unlock[3];
  }

  lemma SampleCoincidence(env: Env, identity: string, seeds: Trees)
    requires Ordinary(env, identity) && DistinctTrees(seeds)
    ensures var (h, request) := (env.hashes, SampleRequest());
            var (trackerNft, dupNft) := (request.trackerFundingBoxId, request.dupVaultFundingBoxId);
            && UnlockSource(SampleTemplates(h).unlock.source, trackerNft, dupNft).Some?
            && (NoCoincidence(env, SampleTemplates(h), trackerNft, dupNft, SampleTree(h), seeds)
                <==> h.blake(seeds.unlock) != h.blake(SEED_TREES.unlock))
  {
    hide UnlockSource, DupFor, TreesFrom, SampleTree, SampleTemplates, SampleRequest, DistinctTrees;
    SampleTrees(env, identity, seeds.unlock);
    SampleTrees(env, identity, "bb");
  }

  /** Passes that start from the hash of the seed unlock tree end with two trees equal, all others
      do not. */
  lemma SampleTrees(env: Env, identity: string, unlockTree: Hex)
    requires Ordinary(env, identity)
    ensures var (h, request) := (env.hashes, SampleRequest());
            var (trackerNft, dupNft) := (request.trackerFundingBoxId, request.dupVaultFundingBoxId);
            var (t, tree) := (SampleTemplates(h), SampleTree(h));
            && UnlockSource(t.unlock.source, trackerNft, dupNft).Some?
            && DupFor(env, t, trackerNft, unlockTree).Some?
            && var trees := TreesFrom(env, t, trackerNft, dupNft, tree, unlockTree);
            && trees.unlock == tree(Unlock, UnlockSource(t.unlock.source, trackerNft, dupNft).value) == "bb"
            && (DistinctTrees(trees) <==> h.blake(unlockTree) != h.blake(SEED_TREES.unlock))
  {
    SampleInOrder(env, identity);
    SampleDup(env, identity, unlockTree);
    hide UnlockSource, DupFor, RequestOk, Resolvable, SampleTemplates, SampleRequest, Ordinary;
    var (nft, h) := (SampleRequest().trackerFundingBoxId, env.hashes);
    var (a, b) := (h.blake(unlockTree), h.blake(SEED_TREES.unlock));
    assert (nft + a)[|nft|..] == a && (nft + b)[|nft|..] == b;
    assert "bb"[0] != "cc"[0] && "aa"[0] != "bb"[0] && "aa"[0] != "cc"[0];
  }

  lemma SampleCompilesBySource(env: Env, identity: string)
    requires Ordinary(env, identity)
    ensures CompilesBySource(env, SampleCompile(env.hashes, identity), SampleTree(env.hashes), identity)
  {
    forall role, source
      ensures LowerHex(SampleTree(env.hashes)(role, source))
    {
    }
  }

  /** The tracker template is shorter than every placeholder. */
  lemma SampleInOrder(env: Env, identity: string)
    requires Ordinary(env, identity)
    ensures var (t, request) := (SampleTemplates(env.hashes), SampleRequest());
            && RequestOk(env, t, request, None)
            && Resolvable(env, t, request.trackerFundingBoxId, request.dupVaultFundingBoxId)
            && UnlockSource(t.unlock.source, request.trackerFundingBoxId, request.dupVaultFundingBoxId).Some?
  {
    var (t, a, b) := (SampleTemplates(env.hashes), SampleRequest().trackerFundingBoxId,
                      SampleRequest().dupVaultFundingBoxId);
    assert a[0] != b[0];
    UnlockPair(a, b);
    hide UnlockSource;
    assert !env.hashes.blank(t.At(Tracker).source) && !env.hashes.blank(t.At(Unlock).source)
           && !env.hashes.blank(t.At(Dup).source);
    assert |TRACKER_NFT| > 8 && |DUP_NFT| > 8 && |UNLOCK_HASH| > 8;
    assert !Unresolved(t.tracker.source);
  }

  lemma SampleDup(env: Env, identity: string, unlockTree: Hex)
    requires Ordinary(env, identity)
    ensures var nft := SampleRequest().trackerFundingBoxId;
            DupFor(env, SampleTemplates(env.hashes), nft, unlockTree) == Some(nft + env.hashes.blake(unlockTree))
  {
    hide DupSource;
    DupPair(SampleRequest().trackerFundingBoxId, env.hashes.blake(unlockTree));
  }
}
