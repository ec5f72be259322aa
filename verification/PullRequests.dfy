/** Creating or finding the one pull request of a milestone branch, through ambiguous replies,
    conflicts, outages and crashes. */
module PullRequests {
  import opened Wrappers

  datatype PullState = Open | Merged | Closed

  /** Where a pull request belongs. */
  datatype Identity = Identity(repository: int, headBranch: string, baseBranch: string)

  /** The pull request a milestone is to have: its place, and the trusted commit at its head. */
  datatype Target = Target(identity: Identity, head: string)

  /** A pull request the provider has for the milestone's branch. */
  datatype Pull = Pull(number: nat, identity: Identity, head: string, state: PullState)

  datatype IntentStatus = Reconciling | Ambiguous | Verified | BlockedIntent

  datatype Failure =
    | Collision | IdentityMismatch | ProviderRejection | StillAmbiguous
    | HeadMismatch | UnexpectedlyClosed | UnexpectedlyMerged | NotFound
    | Precondition | RepositoryMismatch | BranchMismatch | SecurityBlocked

  /** What a create call comes back with; a lost reply leaves open whether it was applied. */
  datatype CreateReply = Created | Conflicted | Lost(applied: bool) | Refused

  /** How a run ends: with a pull request, with a failure, or with the process gone. */
  datatype Outcome<T> = Done(value: T) | Failed(failure: Failure) | Crashed

  predicate IsOpen(p: Pull) { p.state == Open }

  function Matches(want: Target): Pull -> bool { (p: Pull) => p.identity == want.identity }

  function Filter(pulls: seq<Pull>, keep: Pull -> bool): seq<Pull> {
    if pulls == [] then []
    else Filter(pulls[..|pulls| - 1], keep) + if keep(pulls[|pulls| - 1]) then [pulls[|pulls| - 1]] else []
  }

  function OpenPulls(pulls: seq<Pull>): seq<Pull> { Filter(pulls, IsOpen) }

  lemma {:induction false} FilterMembers(pulls: seq<Pull>, keep: Pull -> bool)
    ensures forall p :: p in Filter(pulls, keep) <==> p in pulls && keep(p)
    ensures |Filter(pulls, keep)| <= |pulls|
  {
    if pulls != [] {
      FilterMembers(pulls[..|pulls| - 1], keep);
      assert pulls == pulls[..|pulls| - 1] + [pulls[|pulls| - 1]];
    }
  }

  lemma OpenAppend(pulls: seq<Pull>, p: Pull)
    ensures OpenPulls(pulls + [p]) == OpenPulls(pulls) + if IsOpen(p) then [p] else []
  {
    assert (pulls + [p])[..|pulls|] == pulls;
  }

  /** The provider's pull request with this number. */
  function Numbered(pulls: seq<Pull>, n: nat): Option<Pull> {
    if pulls == [] then None
    else if pulls[|pulls| - 1].number == n then Some(pulls[|pulls| - 1])
    else Numbered(pulls[..|pulls| - 1], n)
  }

  // ------------------------------------------------------------------ with a provider that answers

  function NextReply(replies: seq<CreateReply>): CreateReply { if replies == [] then Refused else replies[0] }

  function Rest(replies: seq<CreateReply>): seq<CreateReply> { if replies == [] then [] else replies[1..] }

  function NewPull(want: Target, pulls: seq<Pull>): Pull { Pull(|pulls|, want.identity, want.head, Open) }

  /** What a conflict comes to. */
  function Conflict(want: Target, open: seq<Pull>): Outcome<Pull> {
    var matches := Filter(open, Matches(want));
    if |matches| > 1 then Failed(Collision)
    else if |matches| == 1 && |open| == 1 then Done(matches[0])
    else Failed(if open != [] then IdentityMismatch else ProviderRejection)
  }

  /** What a second create call comes to. */
  function Retried(want: Target, pulls: seq<Pull>, reply: CreateReply): Outcome<Pull> {
    match reply
    case Created => Done(NewPull(want, pulls))
    case Conflicted => Conflict(want, OpenPulls(pulls))
    case Lost(_) => Failed(StillAmbiguous)
    case Refused => Failed(ProviderRejection)
  }

  /** What a lost reply comes to: one match is adopted, a mixture refused, an absence retried. */
  function Settled(want: Target, pulls: seq<Pull>, replies: seq<CreateReply>): Outcome<Pull> {
    var open := OpenPulls(pulls);
    var matches := Filter(open, Matches(want));
    if |matches| == 1 then Done(matches[0])
    else if open != [] then Failed(Collision)
    else Retried(want, pulls, NextReply(replies))
  }

  /** What a first create call comes to, when nothing of the branch is open. */
  function FirstTried(want: Target, pulls: seq<Pull>, replies: seq<CreateReply>): Outcome<Pull> {
    match NextReply(replies)
    case Created => Done(NewPull(want, pulls))
    case Refused => Failed(ProviderRejection)
    case Conflicted => Conflict(want, OpenPulls(pulls))
    case Lost(applied) =>
      Settled(want, if applied then pulls + [NewPull(want, pulls)] else pulls, Rest(replies))
  }

  /** The pull request a run settles on: the saved one, the one open match, or a new one. */
  function Chosen(want: Target, pulls: seq<Pull>, persisted: Option<Pull>, replies: seq<CreateReply>): Outcome<Pull> {
    if persisted.Some? then NumberedOutcome(pulls, persisted.value.number)
    else
      var open := OpenPulls(pulls);
      var matches := Filter(open, Matches(want));
      if |matches| > 1 then Failed(Collision)
      else if |matches| == 1 then Done(matches[0])
      else if open != [] then Failed(IdentityMismatch)
      else FirstTried(want, pulls, replies)
  }

  function NumberedOutcome(pulls: seq<Pull>, number: nat): Outcome<Pull> {
    match Numbered(pulls, number)
    case None => Failed(NotFound)
    case Some(p) => Done(p)
  }

  /** What is wrong with a live pull request, in the order it is checked. */
  function Wrong(live: Pull, want: Target): Option<Failure> {
    if live.identity != want.identity then Some(IdentityMismatch)
    else if live.head != want.head then Some(HeadMismatch)
    else if live.state == Closed then Some(UnexpectedlyClosed)
    else if live.state == Merged then Some(UnexpectedlyMerged)
    else None
  }

  /** The row that a milestone keeps is about one pull request for good. */
  predicate SamePull(a: Pull, b: Pull) { a.number == b.number && a.identity == b.identity }

  /** What the independent look makes of the choice. */
  function Established(want: Target, pulls: seq<Pull>, persisted: Option<Pull>, choice: Outcome<Pull>): Outcome<Pull> {
    if !choice.Done? then choice
    else
      var live := NumberedOutcome(pulls, choice.value.number);
      if !live.Done? then live
      else
        var wrong := Wrong(live.value, want);
        if wrong.Some? && wrong.value !in {UnexpectedlyClosed, UnexpectedlyMerged} then Failed(wrong.value)
        else if persisted.Some? && !SamePull(persisted.value, live.value) then Failed(IdentityMismatch)
        else if wrong.Some? then Failed(wrong.value)
        else live
  }

  /** What a run finds before the provider is asked: evidence that binds the commit to an accepted
      change set, the trusted HEAD, a verified repository with its default branch, a security
      block, the remote branch, and a block once more after the intent is written. */
  datatype Conditions = Conditions(
    bound: bool, localHead: string, verified: bool, defaultBranch: string, blocked: bool,
    remoteHead: Option<string>, blockedLater: bool)

  /** The first of them that does not hold. */
  function Unmet(c: Conditions, want: Target): Option<Failure> {
    if !c.bound then Some(Precondition)
    else if c.localHead != want.head then Some(HeadMismatch)
    else if !c.verified then Some(RepositoryMismatch)
    else if c.defaultBranch != want.identity.baseBranch then Some(BranchMismatch)
    else if c.blocked then Some(SecurityBlocked)
    else if c.remoteHead != Some(want.head) then Some(HeadMismatch)
    else None
  }

  /** Everything a provider mutation must come after. */
  predicate Permitted(c: Conditions, want: Target) {
    && c.bound && c.localHead == want.head && c.remoteHead == Some(want.head)
    && c.verified && c.defaultBranch == want.identity.baseBranch && !c.blocked && !c.blockedLater
  }

  /** What a run comes to that nothing interrupts. */
  function Run(c: Conditions, want: Target, before: seq<Pull>, after: seq<Pull>, persisted: Option<Pull>, replies: seq<CreateReply>): Outcome<Pull> {
    if Unmet(c, want).Some? then Failed(Unmet(c, want).value)
    else if c.blockedLater then Failed(SecurityBlocked)
    else Established(want, after, persisted, Chosen(want, before, persisted, replies))
  }

  /** A branch without pull requests gets its own one in one run, whether the reply to the create
      call arrives or is lost. */
  lemma FirstRunEstablishes(want: Target, pulls: seq<Pull>, replies: seq<CreateReply>)
    requires OpenPulls(pulls) == [] && NextReply(replies) in {Created, Lost(true)}
    ensures var p := NewPull(want, pulls);
      Established(want, pulls + [p], None, Chosen(want, pulls, None, replies)) == Done(p)
  {
    var p := NewPull(want, pulls);
    OpenAppend(pulls, p);
    var none: seq<Pull> := [];
    assert none + [p] == [p] && [p][..0] == none;
    assert Filter([p], Matches(want)) == [p];
  }

  /** Another run then finds it again without a create call, saved or not. */
  lemma NextRunFindsIt(want: Target, pulls: seq<Pull>, replies: seq<CreateReply>, saved: bool)
    requires OpenPulls(pulls) == []
    ensures var p := NewPull(want, pulls); var persisted := if saved then Some(p) else None;
      Established(want, pulls + [p], persisted, Chosen(want, pulls + [p], persisted, replies)) == Done(p)
  {
    var p := NewPull(want, pulls);
    OpenAppend(pulls, p);
    var none: seq<Pull> := [];
    assert none + [p] == [p] && [p][..0] == none;
    assert Filter([p], Matches(want)) == [p];
  }

  class PullRequestService {
    const want: Target
    var intent: Option<IntentStatus>
    var persisted: Option<Pull>

    /** The provider, how it answers creates, and when a call finds it, or us, gone. */
    var pulls: seq<Pull>
    var replies: seq<CreateReply>
    var outages: seq<bool>

    /** Every create call, with what the provider held when it was made. */
    ghost var creates: seq<seq<Pull>>

    constructor (want: Target, pulls: seq<Pull>, replies: seq<CreateReply>, outages: seq<bool>)
      ensures this.want == want && this.pulls == pulls && persisted == None && intent == None && creates == []
      ensures this.replies == replies && this.outages == outages
    {
      this.want, this.pulls, this.replies, this.outages := want, pulls, replies, outages;
      intent, persisted, creates := None, None, [];
    }

    /** Any call may be the last of this run. */
    method Survives() returns (alive: bool)
      modifies this`outages
      ensures old(outages) == [] ==> alive && outages == []
    {
      alive := outages == [] || !outages[0];
      outages := if outages == [] then [] else outages[1..];
    }

    method FindOpen() returns (found: Option<seq<Pull>>)
      modifies this`outages
      ensures found.Some? ==> found.value == OpenPulls(pulls)
      ensures old(outages) == [] ==> found.Some? && outages == []
    {
      var alive := Survives();
      if !alive { return None; }
      var open, i := [], 0;
      while i < |pulls|
        invariant 0 <= i <= |pulls| && open == OpenPulls(pulls[..i])
        invariant old(outages) == [] ==> outages == []
      {
        assert pulls[..i + 1] == pulls[..i] + [pulls[i]];
        OpenAppend(pulls[..i], pulls[i]);
        if pulls[i].state == Open { open := open + [pulls[i]]; }
        i := i + 1;
      }
      assert pulls[..i] == pulls;
      found := Some(open);
    }

    method Get(number: nat) returns (pull: Outcome<Pull>)
      modifies this`outages
      ensures pull.Done? ==> pull.value in pulls && pull.value.number == number
      ensures old(outages) == [] ==> outages == [] && pull == NumberedOutcome(pulls, number)
    {
      var alive := Survives();
      if !alive { return Crashed; }
      var i := |pulls|;
      assert pulls[..i] == pulls;
      while i > 0
        invariant 0 <= i <= |pulls| && Numbered(pulls, number) == Numbered(pulls[..i], number)
      {
        assert pulls[..i][..i - 1] == pulls[..i - 1];
        i := i - 1;
        if pulls[i].number == number { return Done(pulls[i]); }
      }
      pull := Failed(NotFound);
    }

    /** The provider mutation.  It is applied before the call returns or not at all, whatever the
        reply says. */
    method Create() returns (reply: CreateReply, pull: Pull)
      modifies this`pulls, this`replies, this`creates
      ensures creates == old(creates) + [old(pulls)]
      ensures pull == NewPull(want, old(pulls))
      ensures pulls == if reply.Created? || (reply.Lost? && reply.applied) then old(pulls) + [pull] else old(pulls)
      ensures reply == NextReply(old(replies)) && replies == Rest(old(replies))
    {
      reply, replies := NextReply(replies), Rest(replies);
      pull := NewPull(want, pulls);
      creates := creates + [pulls];
      if reply.Created? || (reply.Lost? && reply.applied) { pulls := pulls + [pull]; }
    }

    method Matching(found: seq<Pull>) returns (matches: seq<Pull>)
      ensures matches == Filter(found, Matches(want))
    {
      var i := 0;
      matches := [];
      while i < |found|
        invariant 0 <= i <= |found| && matches == Filter(found[..i], Matches(want))
      {
        assert found[..i + 1][..i] == found[..i];
        if found[i].identity == want.identity { matches := matches + [found[i]]; }
        i := i + 1;
      }
      assert found[..i] == found;
    }

    /** A conflict is settled by exactly one matching pull request and nothing else. */
    method ReconcileAfterConflict() returns (outcome: Outcome<Pull>)
      modifies this`outages
      ensures outcome.Done? ==> OpenPulls(pulls) == [outcome.value] && outcome.value.identity == want.identity
      ensures old(outages) == [] ==> outages == [] && outcome == Conflict(want, OpenPulls(pulls))
    {
      var found := FindOpen();
      if found.None? { return Crashed; }
      var matches := Matching(found.value);
      FilterMembers(found.value, Matches(want));
      if |matches| > 1 { return Failed(Collision); }
      if |matches| == 1 && |found.value| == 1 {
        assert matches[0] in matches && found.value == [found.value[0]];
        return Done(matches[0]);
      }
      outcome := Failed(if found.value != [] then IdentityMismatch else ProviderRejection);
    }

    /** What a run may have done to the provider: nothing, or, finding no open pull request of
        the branch, one more, by at most two calls that each came after such an observation. */
    ghost predicate AtMostOneCreated(before: seq<Pull>, calls: seq<seq<Pull>>)
      reads this
    {
      && calls <= creates && |creates| <= |calls| + 2
      && (|creates| > |calls| ==> creates[|calls|] == before)
      && (forall k :: |calls| <= k < |creates| ==> OpenPulls(creates[k]) == [])
      && (pulls == before
          || (OpenPulls(before) == [] && pulls == before + [NewPull(want, before)]))
    }

    /** The second and last call, made only when nothing of the branch is open. */
    method Retry() returns (outcome: Outcome<Pull>)
      requires OpenPulls(pulls) == []
      modifies this
      ensures AtMostOneCreated(old(pulls), old(creates)) && |creates| == |old(creates)| + 1
      ensures persisted == old(persisted) && intent == old(intent)
      ensures outcome.Done? ==> outcome.value in pulls
      ensures old(outages) == [] ==> outages == [] && outcome == Retried(want, old(pulls), NextReply(old(replies)))
    {
      var reply, pull := Create();
      OpenAppend(old(pulls), pull);
      match reply {
        case Created => outcome := Done(pull);
        case Conflicted =>
          outcome := ReconcileAfterConflict();
          if outcome.Done? { FilterMembers(pulls, IsOpen); }
        case Lost(_) => outcome := Failed(StillAmbiguous);
        case Refused => outcome := Failed(ProviderRejection);
      }
    }

    /** Look, and only then create; look again, and only then create once more. */
    method CreateOrGet() returns (outcome: Outcome<Pull>)
      requires intent.Some?
      modifies this
      ensures persisted == old(persisted) && intent.Some?
      ensures AtMostOneCreated(old(pulls), old(creates))
      ensures old(persisted).Some? ==> pulls == old(pulls) && creates == old(creates)
      ensures outcome.Done? ==> outcome.value in pulls
      ensures old(outages) == [] ==> outages == [] && outcome == Chosen(want, old(pulls), old(persisted), old(replies))
    {
      if persisted.Some? {
        outcome := Get(persisted.value.number);
        return;
      }
      var existing := FindOpen();
      if existing.None? { return Crashed; }
      FilterMembers(pulls, IsOpen);
      var matches := Matching(existing.value);
      FilterMembers(existing.value, Matches(want));
      if |matches| > 1 { return Failed(Collision); }
      if |matches| == 1 { assert matches[0] in matches; return Done(matches[0]); }
      if existing.value != [] { return Failed(IdentityMismatch); }
      outcome := CreateFirst();
    }

    /** The first call, made when nothing of the branch is open. */
    method CreateFirst() returns (outcome: Outcome<Pull>)
      requires intent.Some? && OpenPulls(pulls) == []
      modifies this
      ensures persisted == old(persisted) && intent.Some?
      ensures AtMostOneCreated(old(pulls), old(creates))
      ensures outcome.Done? ==> outcome.value in pulls
      ensures old(outages) == [] ==> outages == [] && outcome == FirstTried(want, old(pulls), old(replies))
    {
      var reply, pull := Create();
      OpenAppend(old(pulls), pull);
      match reply {
        case Created => outcome := Done(pull);
        case Refused => outcome := Failed(ProviderRejection);
        case Conflicted =>
          outcome := ReconcileAfterConflict();
          if outcome.Done? { FilterMembers(pulls, IsOpen); }
        case Lost(_) => outcome := SettleAmbiguous();
      }
    }

    /** After a lost reply: adopt the one match, refuse a mixture, retry a proven absence. */
    method SettleAmbiguous() returns (outcome: Outcome<Pull>)
      requires intent.Some?
      modifies this
      ensures persisted == old(persisted) && intent.Some?
      ensures old(creates) <= creates && |creates| <= |old(creates)| + 1
      ensures forall k :: |old(creates)| <= k < |creates| ==> OpenPulls(creates[k]) == []
      ensures pulls == old(pulls) ||
        (OpenPulls(old(pulls)) == [] && pulls == old(pulls) + [NewPull(want, old(pulls))])
      ensures outcome.Done? ==> outcome.value in pulls
      ensures old(outages) == [] ==> outages == [] && outcome == Settled(want, old(pulls), old(replies))
    {
      intent := Some(Ambiguous);
      var found := FindOpen();
      if found.None? { return Crashed; }
      FilterMembers(pulls, IsOpen);
      var matches := Matching(found.value);
      FilterMembers(found.value, Matches(want));
      if |matches| == 1 { assert matches[0] in matches; return Done(matches[0]); }
      if found.value != [] {
        intent := Some(BlockedIntent);
        return Failed(Collision);
      }
      outcome := Retry();
    }

    /** The live pull request must be the expected one, open, at the expected head. */
    method Verify(live: Pull) returns (failure: Option<Failure>)
      ensures failure.None? <==> live.identity == want.identity && live.head == want.head && live.state == Open
      ensures failure == Wrong(live, want)
    {
      if live.identity != want.identity { return Some(IdentityMismatch); }
      if live.head != want.head { return Some(HeadMismatch); }
      if live.state == Closed { return Some(UnexpectedlyClosed); }
      if live.state == Merged { return Some(UnexpectedlyMerged); }
      failure := None;
    }

    /** The repository keeps one row for the milestone, never about another pull request. */
    method SaveVerified(live: Pull) returns (ok: bool)
      modifies this`persisted, this`intent
      ensures ok <==> old(persisted).None? || SamePull(old(persisted).value, live)
      ensures ok ==> persisted == Some(live) && intent == Some(Verified)
      ensures !ok ==> persisted == old(persisted) && intent == old(intent)
    {
      ok := persisted.None?
        || (persisted.value.number == live.number && persisted.value.identity == live.identity);
      if ok { persisted, intent := Some(live), Some(Verified); }
    }

    /** Establish the milestone's pull request: a durable intent, then find or create, then an
        independent look, then the row. */
    method Establish(conditions: Conditions) returns (outcome: Outcome<Pull>)
      modifies this
      ensures AtMostOneCreated(old(pulls), old(creates))
      ensures old(persisted).Some? ==>
        && pulls == old(pulls) && creates == old(creates)
        && persisted.Some? && SamePull(persisted.value, old(persisted).value)
      ensures outcome.Done? ==>
        && persisted == Some(outcome.value) && intent == Some(Verified) && outcome.value in pulls
        && outcome.value.identity == want.identity && outcome.value.head == want.head && outcome.value.state == Open
        && Permitted(conditions, want)
      ensures !Permitted(conditions, want) ==>
        pulls == old(pulls) && creates == old(creates) && persisted == old(persisted) && !outcome.Done?
      ensures old(outages) == [] ==> outages == []
      ensures old(outages) == [] ==>
        outcome == Run(conditions, want, old(pulls), pulls, old(persisted), old(replies))
    {
      var unmet := Check(conditions);
      if unmet.Some? { return Failed(unmet.value); }
      intent := Some(Reconciling);
      if conditions.blockedLater { return Failed(SecurityBlocked); }
      outcome := EstablishPermitted();
    }

    /** The preconditions, in the order they are checked. */
    method Check(conditions: Conditions) returns (unmet: Option<Failure>)
      ensures unmet.None? && !conditions.blockedLater <==> Permitted(conditions, want)
      ensures unmet == Unmet(conditions, want)
    {
      if !conditions.bound { return Some(Precondition); }
      if conditions.localHead != want.head { return Some(HeadMismatch); }
      if !conditions.verified { return Some(RepositoryMismatch); }
      if conditions.defaultBranch != want.identity.baseBranch { return Some(BranchMismatch); }
      if conditions.blocked { return Some(SecurityBlocked); }
      if conditions.remoteHead != Some(want.head) { return Some(HeadMismatch); }
      unmet := None;
    }

    /** Past the preconditions: find or create, look independently, and save. */
    method EstablishPermitted() returns (outcome: Outcome<Pull>)
      requires intent.Some?
      modifies this
      ensures AtMostOneCreated(old(pulls), old(creates))
      ensures old(persisted).Some? ==>
        && pulls == old(pulls) && creates == old(creates)
        && persisted.Some? && SamePull(persisted.value, old(persisted).value)
      ensures outcome.Done? ==>
        && persisted == Some(outcome.value) && intent == Some(Verified) && outcome.value in pulls
        && outcome.value.identity == want.identity && outcome.value.head == want.head && outcome.value.state == Open
      ensures old(outages) == [] ==> outages == []
      ensures old(outages) == [] ==>
        outcome == Established(want, pulls, old(persisted), Chosen(want, old(pulls), old(persisted), old(replies)))
    {
      var candidate := CreateOrGet();
      match candidate {
        case Crashed => return Crashed;
        case Failed(failure) =>
          if failure in {Collision, IdentityMismatch} { intent := Some(BlockedIntent); }
          return Failed(failure);
        case Done(pull) =>
          var live := Get(pull.number);
          match live {
            case Crashed => return Crashed;
            case Failed(failure) => return Failed(failure);
            case Done(observed) =>
              var failure := Verify(observed);
              if failure.Some? && failure.value !in {UnexpectedlyClosed, UnexpectedlyMerged} { return Failed(failure.value); }
              var alive := Survives();
              if !alive { return Crashed; }
              var saved := SaveVerified(observed);
              if !saved { return Failed(IdentityMismatch); }
              if failure.Some? { return Failed(failure.value); }
              outcome := Done(observed);
          }
      }
    }

    /** Any number of runs, each finding what it finds and ending in success, failure or a crash
        anywhere: the branch never gets a second open pull request from this service. */
    method EstablishRepeatedly(runs: seq<Conditions>)
      requires |OpenPulls(pulls)| <= 1
      modifies this
      ensures |OpenPulls(pulls)| <= 1
      ensures |pulls| <= |old(pulls)| + 1
      ensures OpenPulls(old(pulls)) != [] ==> pulls == old(pulls) && creates == old(creates)
      ensures (forall c :: c in runs ==> !Permitted(c, want)) ==> pulls == old(pulls) && creates == old(creates)
      ensures |creates| <= |old(creates)| + 2 * |runs|
    {
      var i := 0;
      while i < |runs|
        invariant 0 <= i <= |runs|
        invariant pulls == old(pulls) || (OpenPulls(old(pulls)) == [] && |OpenPulls(pulls)| == 1 && |pulls| == |old(pulls)| + 1)
        invariant OpenPulls(old(pulls)) != [] ==> creates == old(creates)
        invariant (forall c :: c in runs ==> !Permitted(c, want)) ==> pulls == old(pulls) && creates == old(creates)
        invariant |creates| <= |old(creates)| + 2 * i
      {
        ghost var before := pulls;
        var _ := Establish(runs[i]);
        if pulls != before {
          OpenAppend(before, NewPull(want, before));
        }
        i := i + 1;
      }
    }
  }
}
