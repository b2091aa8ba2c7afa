/**
 * The application shell: the auth modal with the continuation a page may
 * leave to run once the user has signed in, and the chat-page test for the
 * footer.
 */
module App {
  import opened Backend

  /** A continuation handed to openAuthModal, told apart by an identifier. */
  datatype Callback = Callback(id: nat)

  /** `(isAuthModalOpen, authModalCallback)`. */
  datatype Modal = Modal(open: bool, callback: Option<Callback>)

  /** The three ways the modal state changes. */
  datatype ModalEvent = OpenWith(cb: Option<Callback>) | Dismiss | SignedIn

  const Closed := Modal(false, None)

  /** One event: the new state and the continuation it ran, if any. Signing in runs the
      stored continuation and then closes the modal as dismissing does. */
  function Step(m: Modal, e: ModalEvent): (r: (Modal, Option<Callback>))
    ensures e.OpenWith? ==> r.0 == Modal(true, e.cb) && r.1 == None
    ensures !e.OpenWith? ==> r.0 == Closed
    ensures r.1.Some? <==> e == SignedIn && m.callback.Some?
    ensures r.1.Some? ==> r.1 == m.callback
  {
    match e {
      case OpenWith(cb) => (Modal(true, cb), None)
      case Dismiss => (Closed, None)
      case SignedIn => (Closed, m.callback)
    }
  }

  /** The continuations run over a sequence of events, in order. */
  function Runs(m: Modal, es: seq<ModalEvent>): seq<Callback>
    decreases es
  {
    if es == [] then []
    else
      var (next, ran) := Step(m, es[0]);
      (if ran.Some? then [ran.value] else []) + Runs(next, es[1..])
  }

  /** The number of events that store a continuation. */
  function Stored(es: seq<ModalEvent>): nat {
    if es == [] then 0 else (if es[0].OpenWith? && es[0].cb.Some? then 1 else 0) + Stored(es[1..])
  }

  /** Each stored continuation runs at most once: no event sequence runs more continuations
      than were stored (plus the one pending at the start). */
  lemma {:induction false} RunsAtMostOnce(m: Modal, es: seq<ModalEvent>)
    ensures |Runs(m, es)| <= Stored(es) + (if m.callback.Some? then 1 else 0)
    decreases es
  {
    if es != [] {
      RunsAtMostOnce(Step(m, es[0]).0, es[1..]);
    }
  }

  /** Without a successful sign-in nothing runs, however often the modal is opened or dismissed. */
  lemma {:induction false} DismissNeverRuns(m: Modal, es: seq<ModalEvent>)
    requires forall i :: 0 <= i < |es| ==> es[i] != SignedIn
    ensures Runs(m, es) == []
    decreases es
  {
    if es != [] {
      DismissNeverRuns(Step(m, es[0]).0, es[1..]);
    }
  }

  /** A continuation stored by openAuthModal runs on sign-in, and a second sign-in runs nothing. */
  lemma OpenThenSignInRunsOnce(m: Modal, cb: Callback)
    ensures Runs(m, [OpenWith(Some(cb)), SignedIn]) == [cb]
    ensures Runs(m, [OpenWith(Some(cb)), SignedIn, SignedIn]) == [cb]
  {
    var m1 := Modal(true, Some(cb));
    assert Runs(Closed, [SignedIn]) == [];
    assert Runs(m1, [SignedIn]) == [cb];
    assert Runs(m1, [SignedIn, SignedIn]) == [cb] + Runs(Closed, [SignedIn]);
  }

  class AppShell {
    var isAuthModalOpen: bool
    var authModalCallback: Option<Callback>

    function State(): Modal
      reads this`isAuthModalOpen, this`authModalCallback
    {
      Modal(isAuthModalOpen, authModalCallback)
    }

    /** A continuation is only ever pending while the modal is open. */
    ghost predicate Valid()
      reads this`isAuthModalOpen, this`authModalCallback
    {
      authModalCallback.Some? ==> isAuthModalOpen
    }

    constructor ()
      ensures State() == Closed && Valid()
    {
      isAuthModalOpen, authModalCallback := false, None;
    }

    /** openAuthModal(callback). */
    method OpenAuthModal(cb: Option<Callback>)
      modifies this`isAuthModalOpen, this`authModalCallback
      ensures State() == Step(old(State()), OpenWith(cb)).0 && Valid()
    {
      authModalCallback := cb;
      isAuthModalOpen := true;
    }

    /** closeAuthModal. */
    method CloseAuthModal()
      modifies this`isAuthModalOpen, this`authModalCallback
      ensures State() == Step(old(State()), Dismiss).0 && Valid()
    {
      isAuthModalOpen := false;
      authModalCallback := None;
    }

    /** The modal's onSuccess: runs the stored continuation, if any, then closes. */
    method OnSuccess() returns (ran: Option<Callback>)
      modifies this`isAuthModalOpen, this`authModalCallback
      ensures (State(), ran) == Step(old(State()), SignedIn) && Valid()
    {
      ran := None;
      if authModalCallback.Some? {
        ran := authModalCallback;
      }
      CloseAuthModal();
    }
  }
}
