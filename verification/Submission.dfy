/**
  The other half of the submit protocol: what each callback lets through in terms of the run's own
  objects, that an ordinary submission does start its transport, and what its digests pin.
 */
module Submission {
  import opened CurrentAuthority
  import opened Prelude
  import opened Submitter

  // ----- Identities and terms in reachable states -----

  /** Authorizations are old objects, and only minted ones are spent. */
  ghost predicate Old(s: State) {
    && (forall a :: a in s.opaques ==> a < s.next)
    && (forall a :: a in s.consumed ==> a in s.opaques)
    && (forall k :: k in s.evidence ==> k.1 < s.next)
  }

  /** Evidence carries the pre-submit digest of its run. */
  ghost predicate EvidenceKept(env: Env, s: State) {
    forall k :: k in s.evidence ==>
      k.0 in s.runs && s.evidence[k].1 == PreSubmitDigest(env, s.runs[k.0].handoff, s.evidence[k].0)
  }

  /** What a core authorization of a run stands for. */
  ghost predicate AuthorityIs(env: Env, s: State, run: Ref, a: Authority) {
    && run in s.runs && (run, a.revalidation) in s.evidence && a.authorization in s.opaques
    && var (t, preSubmit) := (s.runs[run].handoff.terms, s.evidence[(run, a.revalidation)].1);
    && var broadcast := BroadcastDigest(env, s.runs[run].handoff, preSubmit, a.approval);
    && a == Authority(a.revalidation, a.approval, a.authorization, t.candidateId, t.expectedTxId, preSubmit, broadcast)
    && s.opaques[a.authorization]
       == Opaque(t.candidateId, t.expectedTxId, t.signedTransaction, preSubmit, a.approval, broadcast)
  }

  ghost predicate AuthoritiesKept(env: Env, s: State) {
    forall k :: k in s.authorities ==> AuthorityIs(env, s, k.0, s.authorities[k])
  }

  ghost predicate Kept(env: Env, s: State) {
    Old(s) && EvidenceKept(env, s) && AuthoritiesKept(env, s) && forall run :: run in s.runs ==> run < s.next
  }

  /** A step that touches none of the tables. */
  lemma SameTables(env: Env, s: State, t: State)
    requires Kept(env, s) && s.next <= t.next && t.opaques == s.opaques && t.evidence == s.evidence
    requires t.authorities == s.authorities && t.runs == s.runs
    requires forall a :: a in t.consumed ==> a in s.consumed || a in s.opaques
    ensures Kept(env, t)
  {
    hide AuthorityIs;
    forall k | k in t.authorities
      ensures AuthorityIs(env, t, k.0, t.authorities[k])
    {
      AuthorityStays(env, s, t, k.0, s.authorities[k]);
    }
  }

  lemma AuthorityStays(env: Env, s: State, t: State, run: Ref, a: Authority)
    requires AuthorityIs(env, s, run, a) && Old(s)
    requires forall r :: r in s.runs ==> r in t.runs && t.runs[r] == s.runs[r]
    requires forall k :: k in s.evidence ==> k in t.evidence && t.evidence[k] == s.evidence[k]
    requires forall o :: o in s.opaques ==> o in t.opaques && t.opaques[o] == s.opaques[o]
    ensures AuthorityIs(env, t, run, a)
  {
    hide BroadcastDigest;
  }

  lemma BegunKept(env: Env, s: State, handoff: Handoff, deps: Ref)
    requires Kept(env, s)
    ensures Kept(env, RunBegun(env, s, handoff, deps).0)
  {
    hide Concrete, AuthorityIs, PreSubmitDigest;
    var t := RunBegun(env, s, handoff, deps).0;
    forall k | k in t.authorities
      ensures AuthorityIs(env, t, k.0, t.authorities[k])
    {
      RunsAreOld(env, s, k);
      AuthorityStays(env, s, t, k.0, s.authorities[k]);
    }
  }

  lemma RunsAreOld(env: Env, s: State, k: (Ref, Ref))
    requires Kept(env, s) && k in s.authorities
    ensures k.0 in s.runs
  {
  }

  lemma EvidenceRegistered(env: Env, s: State, run: Ref, e: Evidence)
    requires Kept(env, s) && run in s.runs
    ensures Kept(env, WithEvidence(s, run, (e, PreSubmitDigest(env, s.runs[run].handoff, e))))
  {
    hide AuthorityIs, PreSubmitDigest;
    var t := WithEvidence(s, run, (e, PreSubmitDigest(env, s.runs[run].handoff, e)));
    forall k | k in t.authorities
      ensures AuthorityIs(env, t, k.0, t.authorities[k])
    {
      AuthorityStays(env, s, t, k.0, s.authorities[k]);
    }
  }

  lemma MintedKept(env: Env, s: State, run: Ref, revalidation: Ref, approval: Hex)
    requires Kept(env, s) && run in s.runs && (run, revalidation) in s.evidence
    ensures var terms := OpaqueTerms(env, s.runs[run].handoff, s.evidence[(run, revalidation)].1, approval);
            Kept(env, Mint(s, run, s.runs[run].submitter, revalidation, terms))
  {
    hide PreSubmitDigest, AuthorityIs, OpaqueTerms;
    var terms := OpaqueTerms(env, s.runs[run].handoff, s.evidence[(run, revalidation)].1, approval);
    var t := Mint(s, run, s.runs[run].submitter, revalidation, terms);
    forall k | k in t.authorities
      ensures AuthorityIs(env, t, k.0, t.authorities[k])
    {
      if k == (run, s.next + 1) {
        MintedIs(env, s, run, revalidation, approval);
      } else {
        AuthorityStays(env, s, t, k.0, s.authorities[k]);
      }
    }
  }

  lemma MintedIs(env: Env, s: State, run: Ref, revalidation: Ref, approval: Hex)
    requires run in s.runs && (run, revalidation) in s.evidence
    ensures var terms := OpaqueTerms(env, s.runs[run].handoff, s.evidence[(run, revalidation)].1, approval);
            var t := Mint(s, run, s.runs[run].submitter, revalidation, terms);
            AuthorityIs(env, t, run, t.authorities[(run, s.next + 1)])
  {
    hide BroadcastDigest;
  }

  lemma StepKept(env: Env, s: State, e: Event)
    requires Kept(env, s)
    ensures Kept(env, Step(env, s, e))
  {
    hide Kept, RunBegun, RevalidationResumed, AuthorizationResumed, SubmissionResumed, SubmittedDirectly,
         RevalidationCalled, AuthorizationCalled, SubmissionCalled, JournalChanged, SubmitterCreated, DepsCreated;
    match e
    case Journals(state, journal) => SetupKept(env, s, state, journal, Deps(0, 0));
    case CreatesSubmitter => SetupKept(env, s, 0, Journal(map[], map[], map[], {}), Deps(0, 0));
    case CreatesDeps(deps) => SetupKept(env, s, 0, Journal(map[], map[], map[], {}), deps);
    case Begins(handoff, deps) => BegunKept(env, s, handoff, deps);
    case CallsRevalidate(run, reservation, signed) => RevalidationCalledKept(env, s, run, reservation, signed);
    case ResumesRevalidate(call, evidence) => RevalidationResumedKept(env, s, call, evidence);
    case CallsAuthorize(run, revalidation) => AuthorizationCalledKept(env, s, run, revalidation);
    case ResumesAuthorize(call, approval) => AuthorizationResumedKept(env, s, call, approval);
    case CallsSubmit(run, authorization, signed) => SubmissionCalledKept(env, s, run, authorization, signed);
    case ResumesSubmit(call, approved) => SubmissionResumedKept(env, s, call, approved);
    case SubmitsDirectly(submitter, authorization, signed) => DirectKept(env, s, submitter, authorization, signed);
  }

  lemma SetupKept(env: Env, s: State, state: Ref, journal: Journal, deps: Deps)
    requires Kept(env, s)
    ensures Kept(env, JournalChanged(s, state, journal))
    ensures Kept(env, SubmitterCreated(s))
    ensures Kept(env, DepsCreated(s, deps).0)
  {
    hide Kept;
    SameTables(env, s, JournalChanged(s, state, journal));
    SameTables(env, s, SubmitterCreated(s));
    SameTables(env, s, s.(next := s.next + 1, deps := s.deps[s.next := deps]));
  }

  lemma SuspendedKept(env: Env, s: State, p: Pending)
    requires Kept(env, s)
    ensures Kept(env, s.(next := s.next + 1, pending := s.pending[s.next := p]))
  {
    hide Kept;
    SameTables(env, s, s.(next := s.next + 1, pending := s.pending[s.next := p]));
  }

  lemma RevalidationCalledKept(env: Env, s: State, run: Ref, reservation: Ref, signed: Ref)
    requires Kept(env, s)
    ensures Kept(env, RevalidationCalled(env, s, run, reservation, signed).0)
  {
    hide Kept, AuthorityIn;
    SuspendedKept(env, s, Revalidating(run));
  }

  lemma RevalidationResumedKept(env: Env, s: State, call: Ref, evidence: Option<Evidence>)
    requires Kept(env, s)
    ensures Kept(env, RevalidationResumed(env, s, call, evidence).0)
  {
    hide Kept, AuthorityIn, PreSubmitDigest, WithEvidence;
    if call in s.pending {
      var u := s.(pending := s.pending - {call});
      SameTables(env, s, u);
      if RevalidationResumed(env, s, call, evidence).1 {
        EvidenceRegistered(env, u, s.pending[call].run, evidence.value);
      }
    }
  }

  lemma AuthorizationCalledKept(env: Env, s: State, run: Ref, revalidation: Ref)
    requires Kept(env, s)
    ensures Kept(env, AuthorizationCalled(s, run, revalidation).0)
  {
    hide Kept;
    SuspendedKept(env, s, Authorizing(run, revalidation));
  }

  lemma AuthorizationResumedKept(env: Env, s: State, call: Ref, approval: Option<Hex>)
    requires Kept(env, s)
    ensures Kept(env, AuthorizationResumed(env, s, call, approval).0)
  {
    hide Kept, OpaqueTerms, Mint;
    if call in s.pending {
      var u := s.(pending := s.pending - {call});
      SameTables(env, s, u);
      if AuthorizationResumed(env, s, call, approval).1 {
        MintedKept(env, u, s.pending[call].run, s.pending[call].revalidation, approval.value);
      }
    }
  }

  lemma SubmissionCalledKept(env: Env, s: State, run: Ref, authorization: Ref, signed: Hex)
    requires Kept(env, s)
    ensures Kept(env, SubmissionCalled(s, run, authorization, signed).0)
  {
    hide Kept, OpaqueFits;
    if (run, authorization) in s.authorities {
      SuspendedKept(env, s, Submitting(run, s.authorities[(run, authorization)]));
    }
  }

  lemma SubmissionResumedKept(env: Env, s: State, call: Ref, approved: bool)
    requires Kept(env, s)
    ensures Kept(env, SubmissionResumed(env, s, call, approved).0)
  {
    hide Kept, AuthorityIn;
    SameTables(env, s, SubmissionResumed(env, s, call, approved).0);
  }

  lemma DirectKept(env: Env, s: State, submitter: Ref, authorization: Ref, signed: Ref)
    requires Kept(env, s)
    ensures Kept(env, SubmittedDirectly(s, submitter, authorization, signed).0)
  {
    hide Kept;
    SameTables(env, s, SubmittedDirectly(s, submitter, authorization, signed).0);
  }

  /** Every reachable state. */
  lemma {:induction false} RunsAreKept(env: Env, events: seq<Event>)
    ensures Kept(env, Run(env, events))
  {
    hide Step;
    if events == [] {
    } else {
      RunsAreKept(env, events[..|events| - 1]);
      StepKept(env, Run(env, events[..|events| - 1]), events[|events| - 1]);
    }
  }

  // ----- What each callback lets through -----

  /** A run begins exactly for a reserved handoff whose signed artifact is a genuine one for the very
      candidate, transaction and package of its terms, with registered dependencies. */
  lemma BeginsIff(env: Env, s: State, h: Handoff, deps: Ref)
    ensures RunBegun(env, s, h, deps).1 <==>
            && h in env.reservedHandoffs
            && h.signed.id in env.signedArtifacts
            && h.signed == SignedArtifact(h.signed.id, h.terms.candidateId, h.terms.expectedTxId, h.terms.unsignedTx,
                                          h.terms.unsignedPackage, h.terms.signedTransaction)
            && deps in s.deps
  {
  }

  /** A revalidation is let through exactly for the run's own reservation and artifact, under
      current authority. */
  lemma RevalidatesIff(env: Env, s: State, run: Ref, reservation: Ref, signed: Ref)
    ensures RevalidationCalled(env, s, run, reservation, signed).1 <==>
            && run in s.runs
            && var x := s.runs[run];
            && reservation == x.handoff.reservation && signed == x.handoff.signed.id
            && x.state in s.journals && HasAuthority(env.digests, s.journals[x.state], x.handoff.terms)
  {
    hide HasAuthority;
  }

  /** It ends with evidence exactly if the observation succeeded and the authority is still there. */
  lemma RevalidationEndsIff(env: Env, s: State, call: Ref, evidence: Option<Evidence>)
    ensures RevalidationResumed(env, s, call, evidence).1 <==>
            && call in s.pending && s.pending[call].Revalidating? && s.pending[call].run in s.runs
            && evidence.Some?
            && var x := s.runs[s.pending[call].run];
            && x.state in s.journals && HasAuthority(env.digests, s.journals[x.state], x.handoff.terms)
  {
    hide HasAuthority, PreSubmitDigest;
  }

  /** Only a revalidation of the same run is authorised. */
  lemma AuthorizesIff(s: State, run: Ref, revalidation: Ref)
    ensures AuthorizationCalled(s, run, revalidation).1 <==> (run, revalidation) in s.evidence
  {
  }

  /** A fixed submitter starts its transport exactly for an unused authorization bound to itself, which it
      spends. */
  lemma FixedSubmitsIff(s: State, submitter: Ref, authorization: Ref, signed: Ref)
    ensures var (t, ok) := FixedSubmit(s, submitter, authorization, signed);
            && (ok <==>
                  && submitter in s.submitters && authorization in s.opaques
                  && authorization in s.bound && s.bound[authorization] == submitter
                  && authorization !in s.consumed)
            && (ok ==> authorization in t.consumed && t.log == s.log + [Started(authorization, submitter, signed)])
            && (!ok ==> t == s)
  {
  }

  /** An opaque authorization fits exactly if its terms are those of the core authorization and the
      transaction at hand. */
  lemma OpaqueFitsIff(s: State, a: Authority, signedTransaction: Hex)
    ensures OpaqueFits(s, a, signedTransaction) <==>
            && a.authorization in s.opaques
            && s.opaques[a.authorization]
               == Opaque(a.candidateId, a.expectedTxId, signedTransaction, a.preSubmit,
                         s.opaques[a.authorization].approval, a.broadcast)
  {
  }

  /** In reachable states a submission is let through exactly for an authorization of the same run
      and the signed transaction of its terms: the other comparisons never fail. */
  lemma SubmitsIff(env: Env, events: seq<Event>, run: Ref, authorization: Ref, signedTransaction: Hex)
    ensures var s := Run(env, events);
            SubmissionCalled(s, run, authorization, signedTransaction).1 <==>
            && (run, authorization) in s.authorities
            && run in s.runs && signedTransaction == s.runs[run].handoff.terms.signedTransaction
  {
    hide Run, BroadcastDigest;
    RunsAreKept(env, events);
    var s := Run(env, events);
    if (run, authorization) in s.authorities {
      assert AuthorityIs(env, s, run, s.authorities[(run, authorization)]);
    }
  }

  // ----- An ordinary submission -----

  /** The callbacks of one run in order, the journal changing before each check. */
  function Ordinary(
    run: Ref, h: Handoff, deps: Ref, state: Ref, evidence: Evidence, approval: Hex, found: Journal, later: Journal,
    last: Journal): seq<Event>
  {
    [Begins(h, deps),
     Journals(state, found), CallsRevalidate(run, h.reservation, h.signed.id),
     Journals(state, later), ResumesRevalidate(run + 1, Some(evidence)),
     CallsAuthorize(run, run + 2), ResumesAuthorize(run + 3, Some(approval)),
     CallsSubmit(run, run + 5, h.terms.signedTransaction),
     Journals(state, last), ResumesSubmit(run + 6, true)]
  }

  /** What it logs: one transport start, for the run's artifact and submitter. */
  function OrdinaryLog(run: Ref, x: Execution, found: Journal, later: Journal, last: Journal): seq<Entry> {
    [RunStarted(run, x), JournalIs(x.state, found), JournalIs(x.state, later), Revalidated(run, run + 2),
     Minted(run, run + 2, run + 4, x.submitter), JournalIs(x.state, last),
     Started(run + 4, x.submitter, x.handoff.signed.id)]
  }

  ghost predicate Concretely(env: Env, h: Handoff) {
    && h in env.reservedHandoffs && h.signed.id in env.signedArtifacts
    && h.signed == SignedArtifact(h.signed.id, h.terms.candidateId, h.terms.expectedTxId, h.terms.unsignedTx,
                                  h.terms.unsignedPackage, h.terms.signedTransaction)
  }

  lemma Appended(env: Env, events: seq<Event>, e: Event)
    ensures Run(env, events + [e]) == Step(env, Run(env, events), e)
  {
    hide Step;
    assert (events + [e])[..|events|] == events;
  }

  lemma {:induction false} RunOnward(env: Env, events: seq<Event>, more: seq<Event>)
    ensures Run(env, events + more) == Onward(env, Run(env, events), more)
    decreases |more|
  {
    hide Step;
    if more == [] {
      assert events + more == events;
    } else {
      var k := |more| - 1;
      RunOnward(env, events, more[..k]);
      assert events + more == (events + more[..k]) + [more[k]];
      Appended(env, events + more[..k], more[k]);
    }
  }

  function Onward(env: Env, s: State, events: seq<Event>): State {
    if events == [] then s else Step(env, Onward(env, s, events[..|events| - 1]), events[|events| - 1])
  }

  // Each callback of an ordinary submission, by its effect.

  lemma BeginStep(env: Env, s: State, h: Handoff, deps: Ref)
    requires Concretely(env, h) && deps in s.deps
    ensures var x := Execution(h, s.deps[deps].submitter, s.deps[deps].state);
            Step(env, s, Begins(h, deps))
            == s.(next := s.next + 1, runs := s.runs[s.next := x], log := s.log + [RunStarted(s.next, x)])
  {
  }

  lemma RevalidateStep(env: Env, s: State, run: Ref, found: Journal)
    requires run in s.runs && HasAuthority(env.digests, found, s.runs[run].handoff.terms)
    ensures var (x, call) := (s.runs[run], s.next);
            Step(env, Step(env, s, Journals(x.state, found)),
                 CallsRevalidate(run, x.handoff.reservation, x.handoff.signed.id))
            == s.(next := call + 1, journals := s.journals[x.state := found], pending := s.pending[call := Revalidating(run)],
                  log := s.log + [JournalIs(x.state, found)])
  {
    hide HasAuthority;
  }

  lemma EvidenceStep(env: Env, s: State, run: Ref, call: Ref, evidence: Evidence, later: Journal)
    requires run in s.runs && call in s.pending && s.pending[call] == Revalidating(run)
    requires HasAuthority(env.digests, later, s.runs[run].handoff.terms)
    ensures var x := s.runs[run];
            Step(env, Step(env, s, Journals(x.state, later)), ResumesRevalidate(call, Some(evidence)))
            == s.(next := s.next + 1, journals := s.journals[x.state := later], pending := s.pending - {call},
                  evidence := s.evidence[(run, s.next) := (evidence, PreSubmitDigest(env, x.handoff, evidence))],
                  log := s.log + [JournalIs(x.state, later)] + [Revalidated(run, s.next)])
  {
    hide HasAuthority, PreSubmitDigest;
  }

  lemma MintStep(env: Env, s: State, run: Ref, revalidation: Ref, approval: Hex)
    requires run in s.runs && (run, revalidation) in s.evidence
    ensures var (x, call) := (s.runs[run], s.next);
            var t := Step(env, Step(env, s, CallsAuthorize(run, revalidation)), ResumesAuthorize(call, Some(approval)));
            && t.next == call + 3 && t.runs == s.runs && t.journals == s.journals && t.consumed == s.consumed
            && t.submitters == s.submitters
            && t.log == s.log + [Minted(run, revalidation, call + 1, x.submitter)]
            && (run, call + 2) in t.authorities && t.authorities[(run, call + 2)].authorization == call + 1
            && call + 1 in t.opaques && call + 1 in t.bound && t.bound[call + 1] == x.submitter
            && OpaqueFits(t, t.authorities[(run, call + 2)], x.handoff.terms.signedTransaction)
  {
    hide BroadcastDigest;
    var called := Step(env, s, CallsAuthorize(run, revalidation));
    assert called == s.(next := s.next + 1, pending := s.pending[s.next := Authorizing(run, revalidation)]);
    var u := called.(pending := called.pending - {s.next});
    var terms := OpaqueTerms(env, s.runs[run].handoff, s.evidence[(run, revalidation)].1, approval);
    assert Step(env, called, ResumesAuthorize(s.next, Some(approval)))
           == Mint(u, run, s.runs[run].submitter, revalidation, terms);
  }

  lemma SubmitStep(env: Env, s: State, run: Ref, core: Ref, last: Journal)
    requires run in s.runs && (run, core) in s.authorities
    requires var (x, a) := (s.runs[run], s.authorities[(run, core)]);
             && OpaqueFits(s, a, x.handoff.terms.signedTransaction)
             && x.submitter in s.submitters && a.authorization !in s.consumed
             && a.authorization in s.bound && s.bound[a.authorization] == x.submitter
             && HasAuthority(env.digests, last, x.handoff.terms)
    ensures var (x, call) := (s.runs[run], s.next);
            var t := Step(env, Step(env, s, CallsSubmit(run, core, x.handoff.terms.signedTransaction)),
                          Journals(x.state, last));
            Step(env, t, ResumesSubmit(call, true)).log
            == s.log + [JournalIs(x.state, last)]
               + [Started(s.authorities[(run, core)].authorization, x.submitter, x.handoff.signed.id)]
  {
    hide HasAuthority;
    var x := s.runs[run];
    var called := Step(env, s, CallsSubmit(run, core, x.handoff.terms.signedTransaction));
    assert called == s.(next := s.next + 1, pending := s.pending[s.next := Submitting(run, s.authorities[(run, core)])]);
    var t := Step(env, called, Journals(x.state, last));
    assert t == called.(journals := s.journals[x.state := last], log := s.log + [JournalIs(x.state, last)]);
  }

  /** Up to the revalidation. */
  lemma FirstHalf(env: Env, s: State, h: Handoff, deps: Ref, evidence: Evidence, found: Journal, later: Journal)
    requires Concretely(env, h) && deps in s.deps
    requires HasAuthority(env.digests, found, h.terms) && HasAuthority(env.digests, later, h.terms)
    ensures var (run, state) := (s.next, s.deps[deps].state);
            var x := Execution(h, s.deps[deps].submitter, state);
            var s1 := Step(env, Step(env, s, Begins(h, deps)), Journals(state, found));
            var s2 := Step(env, Step(env, s1, CallsRevalidate(run, h.reservation, h.signed.id)), Journals(state, later));
            var t := Step(env, s2, ResumesRevalidate(run + 1, Some(evidence)));
            && t.next == run + 3 && t.runs == s.runs[run := x] && (run, run + 2) in t.evidence
            && t.consumed == s.consumed && t.submitters == s.submitters
            && t.log == s.log + OrdinaryLog(run, x, found, later, later)[..4]
  {
    hide HasAuthority, Step, PreSubmitDigest, Concretely;
    var run := s.next;
    BeginStep(env, s, h, deps);
    var begun := Step(env, s, Begins(h, deps));
    RevalidateStep(env, begun, run, found);
    var called := Step(env, Step(env, begun, Journals(s.deps[deps].state, found)),
                       CallsRevalidate(run, h.reservation, h.signed.id));
    EvidenceStep(env, called, run, run + 1, evidence, later);
  }

  /** From the authorization to the start. */
  lemma SecondHalf(env: Env, t: State, run: Ref, approval: Hex, last: Journal)
    requires t.next == run + 3 && run in t.runs && (run, run + 2) in t.evidence
    requires run + 4 !in t.consumed && t.runs[run].submitter in t.submitters
    requires HasAuthority(env.digests, last, t.runs[run].handoff.terms)
    ensures var x := t.runs[run];
            var t1 := Step(env, Step(env, t, CallsAuthorize(run, run + 2)), ResumesAuthorize(run + 3, Some(approval)));
            var t2 := Step(env, Step(env, t1, CallsSubmit(run, run + 5, x.handoff.terms.signedTransaction)),
                           Journals(x.state, last));
            Step(env, t2, ResumesSubmit(run + 6, true)).log
            == t.log + [Minted(run, run + 2, run + 4, x.submitter), JournalIs(x.state, last),
                        Started(run + 4, x.submitter, x.handoff.signed.id)]
  {
    hide HasAuthority, Step, OpaqueFits;
    MintStep(env, t, run, run + 2, approval);
    var t1 := Step(env, Step(env, t, CallsAuthorize(run, run + 2)), ResumesAuthorize(run + 3, Some(approval)));
    SubmitStep(env, t1, run, run + 5, last);
  }

  /** Main result: from any reachable state, for a concrete handoff and registered dependencies, with
      authority at each check, evidence, approval and recheck, the callbacks in order log exactly one
      transport start, for the run's own artifact and submitter. */
  lemma OrdinarySubmissionStarts(
    env: Env, events: seq<Event>, h: Handoff, deps: Ref, evidence: Evidence, approval: Hex, found: Journal,
    later: Journal, last: Journal)
    requires Concretely(env, h) && deps in Run(env, events).deps
    requires HasAuthority(env.digests, found, h.terms) && HasAuthority(env.digests, later, h.terms)
    requires HasAuthority(env.digests, last, h.terms)
    ensures var s := Run(env, events);
            var x := Execution(h, s.deps[deps].submitter, s.deps[deps].state);
            Run(env, events + Ordinary(s.next, h, deps, x.state, evidence, approval, found, later, last)).log
            == s.log + OrdinaryLog(s.next, x, found, later, last)
  {
    hide Run, HasAuthority, Step, Concretely;
    var s := Run(env, events);
    var (run, x) := (s.next, Execution(h, s.deps[deps].submitter, s.deps[deps].state));
    var more := Ordinary(run, h, deps, x.state, evidence, approval, found, later, last);
    RunOnward(env, events, more);
    OnwardTen(env, s, more);
    RunsAreWired(env, events);
    RunsAreKept(env, events);
    FirstHalf(env, s, h, deps, evidence, found, later);
    var t := Onward(env, s, more[..5]);
    OnwardFive(env, s, more);
    SecondHalf(env, t, run, approval, last);
  }

  lemma OnwardFive(env: Env, s: State, e: seq<Event>)
    requires |e| >= 5
    ensures Onward(env, s, e[..5])
            == Step(env, Step(env, Step(env, Step(env, Step(env, s, e[0]), e[1]), e[2]), e[3]), e[4])
  {
    hide Step, Onward;
    OnwardOne(env, s, e, 4);
    OnwardOne(env, s, e, 3);
    OnwardOne(env, s, e, 2);
    OnwardOne(env, s, e, 1);
    OnwardOne(env, s, e, 0);
    OnwardNone(env, s);
    assert e[..0] == [];
  }

  lemma OnwardTen(env: Env, s: State, e: seq<Event>)
    requires |e| == 10
    ensures Onward(env, s, e)
            == Step(env, Step(env, Step(env, Step(env, Step(env, Onward(env, s, e[..5]), e[5]), e[6]), e[7]), e[8]), e[9])
  {
    hide Step, Onward;
    OnwardOne(env, s, e, 9);
    OnwardOne(env, s, e, 8);
    OnwardOne(env, s, e, 7);
    OnwardOne(env, s, e, 6);
    OnwardOne(env, s, e, 5);
    assert e[..10] == e;
  }

  lemma OnwardNone(env: Env, s: State)
    ensures Onward(env, s, []) == s
  {
  }

  lemma OnwardOne(env: Env, s: State, e: seq<Event>, i: nat)
    requires i < |e|
    ensures Onward(env, s, e[..i + 1]) == Step(env, Onward(env, s, e[..i]), e[i])
  {
    hide Step;
    assert e[..i + 1][..i] == e[..i];
  }

  // ----- What the digests pin -----

  ghost predicate WordsCollisionFree(d: Digests) {
    forall a, b :: d.words(a) == d.words(b) ==> a == b
  }

  /** The terms the digests of a submission bind. */
  function Bound(h: Handoff): (Hex, Hex, Hex, Hex) {
    (h.terms.candidateId, h.terms.expectedTxId, h.terms.reservationDigest, h.terms.signedTransaction)
  }

  /** What the two digests are taken of, in order. */
  lemma Preimages(env: Env, h: Handoff, e: Evidence, preSubmit: Hex, approval: Hex)
    ensures PreSubmitDigest(env, h, e)
            == env.digests.words(["E2S_AUTHENTICATED_SETTLEMENT_PRE_SUBMIT_REVALIDATION_V1"] + ReservedWords(h)
                                 + [h.stableErgoView, h.stableSidechainView, e.ergoView, e.sidechainView])
    ensures BroadcastDigest(env, h, preSubmit, approval)
            == env.digests.words(["E2S_AUTHENTICATED_SETTLEMENT_BROADCAST_AUTHORIZATION_V1"] + ReservedWords(h)
                                 + [preSubmit, approval])
  {
    assert PreSubmitWords(h, e)
           == ["E2S_AUTHENTICATED_SETTLEMENT_PRE_SUBMIT_REVALIDATION_V1"] + ReservedWords(h)
              + [h.stableErgoView, h.stableSidechainView, e.ergoView, e.sidechainView];
    assert BroadcastWords(h, preSubmit, approval)
           == ["E2S_AUTHENTICATED_SETTLEMENT_BROADCAST_AUTHORIZATION_V1"] + ReservedWords(h) + [preSubmit, approval];
  }

  /** The reserved terms, as both digests list them. */
  function ReservedWords(h: Handoff): seq<Hex> {
    [h.terms.candidateId, h.terms.expectedTxId, h.terms.reservationDigest, h.terms.signedTransaction]
  }

  /** A pre-submit digest pins the reserved terms, the stable views they were reserved on and the views
      seen now. */
  lemma PreSubmitPins(env: Env, g: Handoff, e: Evidence, h: Handoff, f: Evidence)
    requires WordsCollisionFree(env.digests) && PreSubmitDigest(env, g, e) == PreSubmitDigest(env, h, f)
    ensures Bound(g) == Bound(h) && e == f
    ensures g.stableErgoView == h.stableErgoView && g.stableSidechainView == h.stableSidechainView
  {
    var a := PreSubmitWords(g, e);
    var b := PreSubmitWords(h, f);
    assert a == b;
    assert a[1] == b[1] && a[2] == b[2] && a[3] == b[3] && a[4] == b[4];
    assert a[5] == b[5] && a[6] == b[6] && a[7] == b[7] && a[8] == b[8];
  }

  /** A broadcast digest pins the reserved terms, the revalidation and the approval. */
  lemma BroadcastPins(env: Env, g: Handoff, preSubmit: Hex, approval: Hex, h: Handoff, preSubmit': Hex, approval': Hex)
    requires WordsCollisionFree(env.digests)
    requires BroadcastDigest(env, g, preSubmit, approval) == BroadcastDigest(env, h, preSubmit', approval')
    ensures Bound(g) == Bound(h) && preSubmit == preSubmit' && approval == approval'
  {
    var a := BroadcastWords(g, preSubmit, approval);
    var b := BroadcastWords(h, preSubmit', approval');
    assert a == b;
    assert a[1] == b[1] && a[2] == b[2] && a[3] == b[3] && a[4] == b[4] && a[5] == b[5] && a[6] == b[6];
  }

  /** The two kinds of digest never coincide. */
  lemma DigestKindsDiffer(env: Env, g: Handoff, e: Evidence, h: Handoff, preSubmit: Hex, approval: Hex)
    requires WordsCollisionFree(env.digests)
    ensures PreSubmitDigest(env, g, e) != BroadcastDigest(env, h, preSubmit, approval)
  {
    assert |PreSubmitWords(g, e)| == 9 && |BroadcastWords(h, preSubmit, approval)| == 7;
  }
}
