/** Notifications against deliveries: one is offered for every handler call that returned,
    on the channel its result asks for. */
module DeliveryNotes {
  import opened Wrappers
  import opened Sums
  import opened Delivery
  import opened DeliveryInvariants

  /** The call whose outcome has been notified. */
  function NotifiedCall(phase: Phase): Option<Called> {
    match phase
    case Notified(call) => Some(call)
    case Acked(call) => Some(call)
    case Recorded(end) => end
    case Done(end) => end
    case _ => None
  }

  predicate NotifiedSuccess(x: Delivery) {
    NotifiedCall(x.phase).Some? && ErrOf(NotifiedCall(x.phase).value).None?
  }

  predicate NotifiedFailure(x: Delivery) {
    NotifiedCall(x.phase).Some? && ErrOf(NotifiedCall(x.phase).value).Some?
  }

  function SuccessNotes(x: Delivery): multiset<Note> {
    if NotifiedSuccess(x) then multiset{Note(x.name, x.key, None)} else multiset{}
  }

  function FailureNotes(x: Delivery): multiset<Note> {
    if NotifiedFailure(x) then multiset{Note(x.name, x.key, ErrOf(NotifiedCall(x.phase).value))} else multiset{}
  }

  /** Everything ever offered to a channel is what the deliveries give reason for. */
  ghost predicate NotesExact(s: State) {
    && multiset(s.succeeded) == (if s.successCh.Some? then Sum(Each(s.deliveries, SuccessNotes)) else multiset{})
    && multiset(s.failed) == (if s.errorCh.Some? then Sum(Each(s.deliveries, FailureNotes)) else multiset{})
  }

  /** The outcome an action notifies. */
  function NoteOf(s: State, a: Action): Option<Note> {
    if a.Notify? && a.d < |s.deliveries| && s.deliveries[a.d].phase.Returned? then
      var x := s.deliveries[a.d];
      Some(Note(x.name, x.key, ErrOf(x.phase.call)))
    else None
  }

  function SuccessOf(s: State, a: Action): seq<Note> {
    var note := NoteOf(s, a);
    if note.Some? && note.value.err.None? then [note.value] else []
  }

  function FailureOf(s: State, a: Action): seq<Note> {
    var note := NoteOf(s, a);
    if note.Some? && note.value.err.Some? then [note.value] else []
  }

  lemma NotifyOffers(S: Setting, s: State, d: nat, waiting: bool)
    requires Enabled(S, s, Notify(d, waiting))
    ensures var t, a := Apply(S, s, Notify(d, waiting)), Notify(d, waiting);
      && t.successCh.Some? == s.successCh.Some? && t.errorCh.Some? == s.errorCh.Some?
      && t.succeeded == (if s.successCh.Some? then s.succeeded + SuccessOf(s, a) else s.succeeded)
      && t.failed == (if s.errorCh.Some? then s.failed + FailureOf(s, a) else s.failed)
  {
  }

  lemma OthersOfferNothing(S: Setting, s: State, a: Action)
    requires Enabled(S, s, a) && !a.Notify?
    ensures var t := Apply(S, s, a);
      && t.successCh.Some? == s.successCh.Some? && t.errorCh.Some? == s.errorCh.Some?
      && t.succeeded == s.succeeded && t.failed == s.failed
      && SuccessOf(s, a) == [] && FailureOf(s, a) == []
  {
  }

  lemma OffersStep(S: Setting, s: State, a: Action)
    requires Enabled(S, s, a)
    ensures Offered(s, Apply(S, s, a), SuccessOf(s, a), FailureOf(s, a))
  {
    if a.Notify? {
      NotifyOffers(S, s, a.d, a.waiting);
    } else {
      OthersOfferNothing(S, s, a);
    }
  }

  /** Only notifying changes what counts as notified. */
  lemma NotifiedStep(S: Setting, s: State, a: Action, d: nat)
    requires Enabled(S, s, a) && Touched(a) == Some(d) && d < |s.deliveries|
    ensures var p, q := s.deliveries[d].phase, Apply(S, s, a).deliveries[d].phase;
      && (a.Notify? ==> p.Returned? && NotifiedCall(p).None? && NotifiedCall(q) == Some(p.call))
      && (!a.Notify? ==> NotifiedCall(q) == NotifiedCall(p))
  {
  }

  lemma TouchedNotes(S: Setting, s: State, a: Action, d: nat)
    requires Enabled(S, s, a) && Touched(a) == Some(d) && d < |s.deliveries|
    ensures var x, y := s.deliveries[d], Apply(S, s, a).deliveries[d];
      && SuccessNotes(y) == SuccessNotes(x) + multiset(SuccessOf(s, a))
      && FailureNotes(y) == FailureNotes(x) + multiset(FailureOf(s, a))
  {
    StepTouches(S, s, a);
    NotifiedStep(S, s, a, d);
    PhaseNotes(s.deliveries[d], Apply(S, s, a).deliveries[d], NoteOf(s, a));
  }

  /** A delivery's notes grow by the note taken, if any. */
  lemma PhaseNotes(x: Delivery, y: Delivery, note: Option<Note>)
    requires y == x.(phase := y.phase)
    requires note.None? ==> NotifiedCall(y.phase) == NotifiedCall(x.phase)
    requires note.Some? ==> NotifiedCall(x.phase).None? && NotifiedCall(y.phase).Some?
                            && note.value == Note(x.name, x.key, ErrOf(NotifiedCall(y.phase).value))
    ensures SuccessNotes(y)
      == SuccessNotes(x) + if note.Some? && note.value.err.None? then multiset{note.value} else multiset{}
    ensures FailureNotes(y)
      == FailureNotes(x) + if note.Some? && note.value.err.Some? then multiset{note.value} else multiset{}
  {
  }

  lemma EachUpdate<T>(ds: seq<Delivery>, d: nat, y: Delivery, f: Delivery -> multiset<T>, more: multiset<T>)
    requires d < |ds| && f(y) == f(ds[d]) + more
    ensures Sum(Each(ds[d := y], f)) == Sum(Each(ds, f)) + more
  {
    assert Each(ds[d := y], f) == Each(ds, f)[d := Each(ds, f)[d] + more];
    SumUpdate(Each(ds, f), d, more);
  }

  lemma EachAppend<T>(ds: seq<Delivery>, x: Delivery, f: Delivery -> multiset<T>)
    ensures Sum(Each(ds + [x], f)) == Sum(Each(ds, f)) + f(x)
  {
    assert Each(ds + [x], f) == Each(ds, f) + [f(x)];
    SumSnoc(Each(ds, f), f(x));
  }

  /** What deliveries contribute grows by what the touched one contributes more. */
  lemma SumGrows<T>(S: Setting, s: State, a: Action, f: Delivery -> multiset<T>, more: multiset<T>)
    requires Enabled(S, s, a)
    requires var t := Apply(S, s, a);
      match Touched(a)
      case Some(d) => d < |s.deliveries| && f(t.deliveries[d]) == f(s.deliveries[d]) + more
      case None => more == multiset{} && forall x: Delivery :: x.phase.Arrived? ==> f(x) == multiset{}
    ensures Sum(Each(Apply(S, s, a).deliveries, f)) == Sum(Each(s.deliveries, f)) + more
  {
    var t, n := Apply(S, s, a), |s.deliveries|;
    StepTouches(S, s, a);
    if Touched(a).Some? {
      EachUpdate(s.deliveries, Touched(a).value, t.deliveries[Touched(a).value], f, more);
    } else if a.Deliver? || a.Request? {
      assert t.deliveries == s.deliveries + [t.deliveries[n]];
      EachAppend(s.deliveries, t.deliveries[n], f);
    }
  }

  lemma NotedActionIsTouching(S: Setting, s: State, a: Action)
    requires Enabled(S, s, a)
    ensures Touched(a).Some? ==> Touched(a).value < |s.deliveries|
    ensures Touched(a).None? ==> SuccessOf(s, a) == [] && FailureOf(s, a) == []
  {
  }

  /** What the deliveries give reason for grows by what the action notifies. */
  lemma NotesGrow(S: Setting, s: State, a: Action)
    requires Enabled(S, s, a)
    ensures var t := Apply(S, s, a);
      && Sum(Each(t.deliveries, SuccessNotes)) == Sum(Each(s.deliveries, SuccessNotes)) + multiset(SuccessOf(s, a))
      && Sum(Each(t.deliveries, FailureNotes)) == Sum(Each(s.deliveries, FailureNotes)) + multiset(FailureOf(s, a))
  {
    NotedActionIsTouching(S, s, a);
    if Touched(a).Some? {
      TouchedNotes(S, s, a, Touched(a).value);
    }
    SumGrows(S, s, a, SuccessNotes, multiset(SuccessOf(s, a)));
    SumGrows(S, s, a, FailureNotes, multiset(FailureOf(s, a)));
  }

  lemma NotesStep(S: Setting, s: State, a: Action)
    requires NotesExact(s) && Enabled(S, s, a)
    ensures NotesExact(Apply(S, s, a))
  {
    OffersStep(S, s, a);
    NotesGrow(S, s, a);
  }

  /** The successes of a run in the order in which handlers reported them. */
  function Successes(S: Setting, s: State, acts: seq<Action>): seq<Note>
    requires Run(S, s, acts).Some?
  {
    if acts == [] then []
    else
      var before := acts[..|acts| - 1];
      Successes(S, s, before) + SuccessOf(Run(S, s, before).value, acts[|acts| - 1])
  }

  function Failures(S: Setting, s: State, acts: seq<Action>): seq<Note>
    requires Run(S, s, acts).Some?
  {
    if acts == [] then []
    else
      var before := acts[..|acts| - 1];
      Failures(S, s, before) + FailureOf(Run(S, s, before).value, acts[|acts| - 1])
  }

  lemma SuccessesSnoc(S: Setting, s: State, acts: seq<Action>)
    requires acts != [] && Run(S, s, acts).Some?
    ensures var before, a := acts[..|acts| - 1], acts[|acts| - 1];
      && Run(S, s, before).Some? && Enabled(S, Run(S, s, before).value, a)
      && Run(S, s, acts).value == Apply(S, Run(S, s, before).value, a)
      && Successes(S, s, acts) == Successes(S, s, before) + SuccessOf(Run(S, s, before).value, a)
      && Failures(S, s, acts) == Failures(S, s, before) + FailureOf(Run(S, s, before).value, a)
  {
  }

  /** Offered from `s` to `t`: these successes and failures, each if its channel exists. */
  predicate Offered(s: State, t: State, successes: seq<Note>, failures: seq<Note>) {
    && t.successCh.Some? == s.successCh.Some? && t.errorCh.Some? == s.errorCh.Some?
    && t.succeeded == s.succeeded + (if s.successCh.Some? then successes else [])
    && t.failed == s.failed + (if s.errorCh.Some? then failures else [])
  }

  lemma OfferedThen(s: State, t: State, u: State, a: seq<Note>, b: seq<Note>, c: seq<Note>, d: seq<Note>)
    requires Offered(s, t, a, b) && Offered(t, u, c, d)
    ensures Offered(s, u, a + c, b + d)
  {
  }

  /** What was offered, in order, is what the run's handlers reported. */
  lemma {:induction false} OffersAreOutcomes(S: Setting, s: State, acts: seq<Action>)
    requires Run(S, s, acts).Some?
    ensures Offered(s, Run(S, s, acts).value, Successes(S, s, acts), Failures(S, s, acts))
  {
    if acts != [] {
      var before, a := acts[..|acts| - 1], acts[|acts| - 1];
      SuccessesSnoc(S, s, acts);
      OffersAreOutcomes(S, s, before);
      var t := Run(S, s, before).value;
      OffersStep(S, t, a);
      OfferedThen(s, t, Run(S, s, acts).value, Successes(S, s, before), Failures(S, s, before),
                  SuccessOf(t, a), FailureOf(t, a));
    }
  }

  lemma SuccessesCounted(s: State)
    requires NotesExact(s) && s.successCh.Some?
    ensures |s.succeeded| == CountIf(s.deliveries, NotifiedSuccess)
  {
    SumSizeCounts(s.deliveries, Each(s.deliveries, SuccessNotes), NotifiedSuccess);
    assert |multiset(s.succeeded)| == |s.succeeded|;
  }

  lemma FailuresCounted(s: State)
    requires NotesExact(s) && s.errorCh.Some?
    ensures |s.failed| == CountIf(s.deliveries, NotifiedFailure)
  {
    SumSizeCounts(s.deliveries, Each(s.deliveries, FailureNotes), NotifiedFailure);
    assert |multiset(s.failed)| == |s.failed|;
  }
}
