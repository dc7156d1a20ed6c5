/**
 * The administrator's dashboard: who may see it, the list of profiles it
 * fetches and sorts newest first, the approval duration selector, and the
 * actions it offers for each subscription status.
 *
 * The profile query and the decision service are outside the model; their
 * answers are parameters. A profile's creation instant is given as the
 * number of milliseconds `new Date(created_at)` denotes.
 */
module AdminDashboard {
  import opened JsValues
  import opened SubscriptionRequests

  /** A profile row as the dashboard reads it. */
  datatype Profile = Profile(id: string, createdAt: int, status: JsValue)

  /** The answer of the profile query: an error, or the rows (`null` when there are none). */
  datatype Fetch = FetchError(message: string) | Fetched(data: Option<seq<Profile>>)

  // ---------------------------------------------------------------------------
  // Newest first
  // ---------------------------------------------------------------------------

  /** Every profile was created no earlier than the ones after it. */
  predicate NewestFirst(xs: seq<Profile>) {
    forall i, j :: 0 <= i < j < |xs| ==> xs[i].createdAt >= xs[j].createdAt
  }

  /** Puts `p` before the first profile created no later than it. */
  function Insert(p: Profile, xs: seq<Profile>): seq<Profile>
    decreases |xs|
  {
    if xs == [] || xs[0].createdAt <= p.createdAt then [p] + xs else [xs[0]] + Insert(p, xs[1..])
  }

  /**
   * `data.sort((a, b) => new Date(b.created_at) - new Date(a.created_at))`:
   * newest first, profiles created at the same instant in their fetched order,
   * as the stable sort of the language leaves them.
   */
  function SortNewestFirst(xs: seq<Profile>): seq<Profile>
    decreases |xs|
  {
    if xs == [] then [] else Insert(xs[0], SortNewestFirst(xs[1..]))
  }

  lemma {:induction false} InsertPermutes(p: Profile, xs: seq<Profile>)
    ensures multiset(Insert(p, xs)) == multiset{p} + multiset(xs)
    decreases |xs|
  {
    if xs != [] && xs[0].createdAt > p.createdAt {
      InsertPermutes(p, xs[1..]);
      assert xs == [xs[0]] + xs[1..];
    }
  }

  /** No profile of `xs` was created after instant `t`. */
  predicate NoneAfter(xs: seq<Profile>, t: int) {
    forall i :: 0 <= i < |xs| ==> xs[i].createdAt <= t
  }

  lemma {:induction false} InsertNoneAfter(p: Profile, xs: seq<Profile>, t: int)
    requires NoneAfter(xs, t) && p.createdAt <= t
    ensures NoneAfter(Insert(p, xs), t)
    decreases |xs|
  {
    var r := Insert(p, xs);
    if xs == [] || xs[0].createdAt <= p.createdAt {
      forall i | 1 <= i < |r| ensures r[i].createdAt <= t {
        assert r[i] == xs[i - 1];
      }
    } else {
      var rest := Insert(p, xs[1..]);
      InsertNoneAfter(p, xs[1..], t);
      forall i | 1 <= i < |r| ensures r[i].createdAt <= t {
        assert r[i] == rest[i - 1];
      }
    }
  }

  lemma ConsNewestFirst(x: Profile, rest: seq<Profile>)
    requires NewestFirst(rest) && NoneAfter(rest, x.createdAt)
    ensures NewestFirst([x] + rest)
  {
    var r := [x] + rest;
    forall i, j | 0 <= i < j < |r| ensures r[i].createdAt >= r[j].createdAt {
      assert r[j] == rest[j - 1];
      if i > 0 {
        assert r[i] == rest[i - 1];
      }
    }
  }

  lemma {:induction false} InsertKeepsOrder(p: Profile, xs: seq<Profile>)
    requires NewestFirst(xs)
    ensures NewestFirst(Insert(p, xs))
    decreases |xs|
  {
    if xs == [] || xs[0].createdAt <= p.createdAt {
      forall i | 0 <= i < |xs| ensures xs[i].createdAt <= p.createdAt {
        if i > 0 {
          assert xs[0].createdAt >= xs[i].createdAt;
        }
      }
      ConsNewestFirst(p, xs);
    } else {
      var tail := xs[1..];
      forall i, j | 0 <= i < j < |tail| ensures tail[i].createdAt >= tail[j].createdAt {
        assert tail[i] == xs[i + 1] && tail[j] == xs[j + 1];
      }
      forall i | 0 <= i < |tail| ensures tail[i].createdAt <= xs[0].createdAt {
        assert tail[i] == xs[i + 1];
      }
      InsertKeepsOrder(p, tail);
      InsertNoneAfter(p, tail, xs[0].createdAt);
      ConsNewestFirst(xs[0], Insert(p, tail));
    }
  }

  /** The sorted list is newest first. */
  lemma {:induction false} SortIsNewestFirst(xs: seq<Profile>)
    ensures NewestFirst(SortNewestFirst(xs))
    decreases |xs|
  {
    if xs != [] {
      SortIsNewestFirst(xs[1..]);
      InsertKeepsOrder(xs[0], SortNewestFirst(xs[1..]));
    }
  }

  /** The sorted list holds exactly the fetched profiles, each as often as fetched. */
  lemma {:induction false} SortIsPermutation(xs: seq<Profile>)
    ensures multiset(SortNewestFirst(xs)) == multiset(xs)
    decreases |xs|
  {
    if xs != [] {
      SortIsPermutation(xs[1..]);
      InsertPermutes(xs[0], SortNewestFirst(xs[1..]));
      assert xs == [xs[0]] + xs[1..];
    }
  }

  /** The profiles created at instant `t`, in order. */
  function CreatedAt(xs: seq<Profile>, t: int): seq<Profile>
    decreases |xs|
  {
    if xs == [] then [] else (if xs[0].createdAt == t then [xs[0]] else []) + CreatedAt(xs[1..], t)
  }

  lemma CreatedAtCons(x: Profile, xs: seq<Profile>, t: int)
    ensures CreatedAt([x] + xs, t) == (if x.createdAt == t then [x] else []) + CreatedAt(xs, t)
  {
    assert ([x] + xs)[1..] == xs;
  }

  lemma {:induction false} InsertIsStable(p: Profile, xs: seq<Profile>, t: int)
    ensures CreatedAt(Insert(p, xs), t) == (if p.createdAt == t then [p] else []) + CreatedAt(xs, t)
    decreases |xs|
  {
    if xs == [] || xs[0].createdAt <= p.createdAt {
      CreatedAtCons(p, xs, t);
    } else {
      var rest := Insert(p, xs[1..]);
      InsertIsStable(p, xs[1..], t);
      CreatedAtCons(xs[0], rest, t);
      CreatedAtCons(xs[0], xs[1..], t);
      assert [xs[0]] + xs[1..] == xs;
      if p.createdAt == t {
        assert xs[0].createdAt != t;
      }
    }
  }

  /** Sorting is stable: the profiles created at any one instant keep their fetched order. */
  lemma {:induction false} SortIsStable(xs: seq<Profile>, t: int)
    ensures CreatedAt(SortNewestFirst(xs), t) == CreatedAt(xs, t)
    decreases |xs|
  {
    if xs != [] {
      SortIsStable(xs[1..], t);
      InsertIsStable(xs[0], SortNewestFirst(xs[1..]), t);
    }
  }

  // ---------------------------------------------------------------------------
  // Access guard
  // ---------------------------------------------------------------------------

  /** Where the dashboard's effect sends the visitor. */
  datatype GuardDecision = ToSignup | ToHome | Stay

  /** No user goes to sign up; a user who is neither an administrator by role nor the master address goes home. */
  function Guard(user: Option<AuthUser>): GuardDecision {
    if user.None? then ToSignup
    else if user.value.role != Str("admin") && user.value.email != MasterAdminEmail then ToHome
    else Stay
  }

  /** The dashboard stays open exactly for a signed-in user with the admin role or the master address. */
  lemma GuardAdmits(user: Option<AuthUser>)
    ensures Guard(user) == Stay <==> user.Some? && (user.value.role == Str("admin") || user.value.email == MasterAdminEmail)
    ensures Guard(user) == ToSignup <==> user.None?
  {
  }

  // ---------------------------------------------------------------------------
  // Durations and offered actions
  // ---------------------------------------------------------------------------

  /** The months of access the selector offers. */
  const DurationChoices: seq<nat> := [1, 2, 3, 6, 12, 24]

  const DefaultDuration: nat := 12

  /** The default duration is one of the choices, and the choices are listed shortest first without repeats. */
  lemma DurationChoicesWellFormed()
    ensures DefaultDuration in DurationChoices
    ensures forall i, j :: 0 <= i < j < |DurationChoices| ==> DurationChoices[i] < DurationChoices[j]
  {
  }

  /** A button of a profile row: the action it requests and the duration it passes, if any. */
  datatype Offer = Offer(action: string, duration: Option<nat>)

  /** The buttons of a row: dismiss or approve a pending request, suspend an active one, re-enable any other. */
  function OfferedActions(status: JsValue, duration: nat): seq<Offer> {
    if status == Str("pending") then [Offer("reject", None), Offer("approve", Some(duration))]
    else if status == Str("active") then [Offer("disable", None)]
    else [Offer("enable", Some(duration))]
  }

  /**
   * Every offered action changes the subscription status: a pending request
   * becomes active or rejected, an active one disabled, any other active.
   * The selected duration goes exactly with the actions that activate.
   */
  lemma OfferedActionsChangeStatus(status: JsValue, duration: nat)
    ensures forall o :: o in OfferedActions(status, duration) ==>
      Str(NextStatus(o.action)) != status && (o.duration.Some? <==> Activates(o.action)) &&
      (o.duration.Some? ==> o.duration.value == duration)
  {
  }

  /** Approval is offered only for a pending request, suspension only for an active one. */
  lemma OfferedActionsByStatus(status: JsValue, duration: nat)
    ensures (exists o :: o in OfferedActions(status, duration) && o.action == "approve") <==> status == Str("pending")
    ensures (exists o :: o in OfferedActions(status, duration) && o.action == "disable") <==> status == Str("active")
    ensures (exists o :: o in OfferedActions(status, duration) && o.action == "enable") <==>
      status != Str("pending") && status != Str("active")
  {
    var offers := OfferedActions(status, duration);
    if status == Str("pending") {
      assert offers[1].action == "approve";
    } else if status == Str("active") {
      assert offers[0].action == "disable";
    } else {
      assert offers[0].action == "enable";
    }
  }

  // ---------------------------------------------------------------------------
  // Success notice
  // ---------------------------------------------------------------------------

  /** The success notice as the dashboard writes it: the action with "d" appended. */
  function SuccessNoticeAsWritten(action: string): string {
    "Request " + action + "d successfully."
  }

  /** For a dismissed request the appended "d" misspells the verb. */
  lemma RejectNoticeMisspelt()
    ensures SuccessNoticeAsWritten("reject") == "Request rejectd successfully."
    ensures SuccessNotice("reject") == "Request rejected successfully."
  {
  }

  predicate EndsWithE(verb: string) {
    verb != [] && verb[|verb| - 1] == 'e'
  }

  /** The regular past tense of a verb: "d" after a final 'e', "ed" otherwise. */
  function PastTense(verb: string): string {
    if EndsWithE(verb) then verb + "d" else verb + "ed"
  }

  /** The success notice with the action in the past tense. */
  function SuccessNotice(action: string): string {
    "Request " + PastTense(action) + " successfully."
  }

  /** The notice as written is right exactly for the verbs that end in 'e'; the one action that does not is "reject". */
  lemma NoticeAsWrittenAgrees(action: string)
    ensures SuccessNoticeAsWritten(action) == SuccessNotice(action) <==> EndsWithE(action)
  {
    if !EndsWithE(action) {
      var k := |"Request " + action|;
      assert SuccessNoticeAsWritten(action)[k] == 'd';
      assert SuccessNotice(action)[k] == 'e';
    }
  }

  /** Of the actions the dashboard offers, only the dismissal's notice is changed by the correction. */
  lemma CorrectionOnlyChangesReject(status: JsValue, duration: nat)
    ensures forall o :: o in OfferedActions(status, duration) ==>
      (SuccessNotice(o.action) == SuccessNoticeAsWritten(o.action) <==> o.action != "reject")
  {
    forall o | o in OfferedActions(status, duration)
      ensures SuccessNotice(o.action) == SuccessNoticeAsWritten(o.action) <==> o.action != "reject"
    {
      NoticeAsWrittenAgrees(o.action);
    }
  }

  // ---------------------------------------------------------------------------
  // Dashboard state
  // ---------------------------------------------------------------------------

  /** The list the dashboard shows after a fetch: nothing on an error, the rows newest first otherwise. */
  function Listed(answer: Fetch): seq<Profile> {
    match answer
    case FetchError(_) => []
    case Fetched(data) => SortNewestFirst(if data.Some? then data.value else [])
  }

  /** `allRequests`, `loadingData` and `approvalDuration`. */
  class Dashboard {
    var allRequests: seq<Profile>
    var loadingData: bool
    var approvalDuration: nat

    constructor()
      ensures allRequests == [] && loadingData && approvalDuration == DefaultDuration
    {
      allRequests := [];
      loadingData := true;
      approvalDuration := DefaultDuration;
    }

    /** The start of `fetchData`: loading is on while the query runs. */
    method BeginFetch()
      modifies this
      ensures loadingData && allRequests == old(allRequests) && approvalDuration == old(approvalDuration)
    {
      loadingData := true;
    }

    /** The end of `fetchData`, when the query has answered: the list of the answer, and loading over either way. */
    method CompleteFetch(answer: Fetch)
      modifies this
      ensures allRequests == Listed(answer) && !loadingData && approvalDuration == old(approvalDuration)
    {
      match answer {
        case FetchError(_) =>
          allRequests := [];
        case Fetched(data) =>
          var sorted := SortNewestFirst(if data.Some? then data.value else []);
          allRequests := sorted;
      }
      loadingData := false;
    }

    /** `fetchData` run on its own: the list of the answer, and loading over either way. */
    method FetchData(answer: Fetch)
      modifies this
      ensures allRequests == Listed(answer) && !loadingData && approvalDuration == old(approvalDuration)
    {
      BeginFetch();
      CompleteFetch(answer);
    }

    /** Choosing one of the offered durations. */
    method SelectDuration(months: nat)
      requires months in DurationChoices
      modifies this
      ensures approvalDuration == months
      ensures allRequests == old(allRequests) && loadingData == old(loadingData)
    {
      approvalDuration := months;
    }

    /**
     * The effect run when the user changes: it redirects a visitor who may not
     * see the dashboard, and otherwise starts `fetchData` twice without
     * waiting. Both queries run at once; `earlier` is the answer that arrives
     * first and `later` the one that arrives last, which is what stays shown.
     */
    method OnUserChange(user: Option<AuthUser>, earlier: Fetch, later: Fetch) returns (decision: GuardDecision)
      modifies this
      ensures decision == Guard(user)
      ensures decision == Stay ==> allRequests == Listed(later) && !loadingData
      ensures decision != Stay ==> allRequests == old(allRequests) && loadingData == old(loadingData)
      ensures approvalDuration == old(approvalDuration)
    {
      decision := Guard(user);
      if decision == Stay {
        BeginFetch();
        BeginFetch();
        CompleteFetch(earlier);
        CompleteFetch(later);
      }
    }

    /**
     * After a decision: a success is announced, with the notice as the
     * dashboard writes it, and the list fetched again; a failure shows the
     * error and changes nothing.
     */
    method OnHandleRequest(action: string, result: Outcome, refetch: Fetch) returns (notice: string)
      modifies this
      ensures result.Success? ==> notice == SuccessNoticeAsWritten(action) && allRequests == Listed(refetch) && !loadingData
      ensures result.Failure? ==> notice == result.error && allRequests == old(allRequests) && loadingData == old(loadingData)
      ensures approvalDuration == old(approvalDuration)
    {
      if result.Success? {
        notice := SuccessNoticeAsWritten(action);
        FetchData(refetch);
      } else {
        notice := result.error;
      }
    }
  }
}
