/**
 * The events the drop-down fires and how it delivers them. Every handler
 * registry is a HashSet, and an event is delivered by iterating over it:
 * each registered handler is called exactly once, in an order the set
 * decides. A delivery is recorded as one Notice per call.
 */
module Events {
  import opened Options

  /** The identity of a registered handler or listener. */
  type HandlerId = nat

  /** POpenEvent, PCloseEvent, PValueChangeEvent and the listener call onClearTitleClicked. */
  datatype Event<V> = OpenEvent | CloseEvent | ValueChangeEvent(value: Option<V>) | ClearTitleClicked

  datatype Notice<V> = Notice(handler: HandlerId, event: Event<V>)

  /** `batch` delivers `e` to every handler of `hs` exactly once and to no one else. */
  ghost predicate NotifiesEachOnce<V>(batch: seq<Notice<V>>, hs: set<HandlerId>, e: Event<V>)
  {
    && (forall n | n in batch :: n.event == e && n.handler in hs)
    && (forall h | h in hs :: multiset(batch)[Notice(h, e)] == 1)
  }

  /** Iterating a handler set to deliver `e`: one call per handler, in the set's own order. */
  method Dispatch<V>(hs: set<HandlerId>, e: Event<V>) returns (batch: seq<Notice<V>>)
    ensures NotifiesEachOnce(batch, hs, e)
  {
    batch := [];
    var pending := hs;
    while pending != {}
      invariant pending <= hs
      invariant forall n | n in batch :: n.event == e && n.handler in hs - pending
      invariant forall h | h in hs - pending :: multiset(batch)[Notice(h, e)] == 1
      decreases |pending|
    {
      var h :| h in pending;
      assert Notice(h, e) !in batch;
      batch := batch + [Notice(h, e)];
      pending := pending - {h};
    }
  }

  /** A delivery makes exactly as many calls as there are registered handlers. */
  lemma {:induction false} NotifiedCount<V>(batch: seq<Notice<V>>, hs: set<HandlerId>, e: Event<V>)
    requires NotifiesEachOnce(batch, hs, e)
    ensures |batch| == |hs|
  {
    if batch != [] {
      var n := batch[0];
      var rest := batch[1..];
      assert batch == [n] + rest;
      assert n.handler in hs && n == Notice(n.handler, e);
      assert multiset(rest)[n] == 0;
      forall m | m in rest ensures m.event == e && m.handler in hs - {n.handler} {
        assert m in batch;
      }
      forall h | h in hs - {n.handler} ensures multiset(rest)[Notice(h, e)] == 1 {
        assert multiset(batch)[Notice(h, e)] == 1;
      }
      NotifiedCount(rest, hs - {n.handler}, e);
    }
  }

  /**
   * Two deliveries of the same event to the same handlers differ at most in
   * order: the iteration order of the set is the only thing left open.
   */
  lemma NotifiesSameCalls<V>(b1: seq<Notice<V>>, b2: seq<Notice<V>>, hs: set<HandlerId>, e: Event<V>)
    requires NotifiesEachOnce(b1, hs, e) && NotifiesEachOnce(b2, hs, e)
    ensures multiset(b1) == multiset(b2)
  {
    forall x: Notice<V> ensures multiset(b1)[x] == multiset(b2)[x] {
      if x.event == e && x.handler in hs {
        assert x == Notice(x.handler, e);
      } else {
        assert x !in b1 && x !in b2;
      }
    }
  }
}
