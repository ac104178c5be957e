/** The browser-side DevTools client counter
    (content/browser/devtools/devtools_manager_impl.cc). It counts attached
    DevTools clients and, on the edges between none and some, posts a task
    to the IO thread that attaches or detaches the network-log observer.
    Posting is modelled as appending to the list of posted tasks. */
module DevTools {
  import opened SeqCounting

  /** The two tasks posted to the IO thread. */
  datatype NetLogTask = Attach | Detach

  predicate IsAttach(t: NetLogTask) { t == Attach }

  predicate IsDetach(t: NetLogTask) { t == Detach }

  /** The posted tasks begin with an attach and never repeat a task twice
      in a row. */
  predicate Alternates(ts: seq<NetLogTask>) {
    && (|ts| > 0 ==> ts[0] == Attach)
    && forall i | 0 < i < |ts| :: ts[i] != ts[i - 1]
  }

  /** The last task posted, if any, attached the observer. */
  predicate EndsAttached(ts: seq<NetLogTask>) {
    |ts| > 0 && ts[|ts| - 1] == Attach
  }

  /** What the counter and the posted tasks always satisfy: the count never
      goes below zero, the tasks alternate, and the observer is attached
      exactly while some client is. */
  predicate Consistent(count: int, posted: seq<NetLogTask>) {
    && count >= 0
    && Alternates(posted)
    && (count > 0 <==> EndsAttached(posted))
  }

  /** In an alternating list, attaches outnumber detaches by one when the
      last task was an attach, and equal them otherwise. */
  lemma {:induction false} AlternatingCounts(ts: seq<NetLogTask>)
    requires Alternates(ts)
    ensures CountIf(ts, IsAttach) == CountIf(ts, IsDetach) + (if EndsAttached(ts) then 1 else 0)
  {
    if ts != [] {
      var ts' := ts[..|ts| - 1];
      assert forall i | 0 <= i < |ts'| :: ts'[i] == ts[i];
      AlternatingCounts(ts');
      if |ts'| > 0 {
        assert ts[|ts| - 1] != ts[|ts| - 2];
      }
    }
  }

  /** More attaches than detaches have been posted exactly while a client
      is attached, and never more than one more. */
  lemma OutstandingAttach(count: int, posted: seq<NetLogTask>)
    requires Consistent(count, posted)
    ensures CountIf(posted, IsAttach) > CountIf(posted, IsDetach) <==> count > 0
    ensures CountIf(posted, IsAttach) <= CountIf(posted, IsDetach) + 1
  {
    AlternatingCounts(posted);
  }

  /** OnClientAttached keeps the counter consistent. */
  lemma AttachStep(count: int, posted: seq<NetLogTask>)
    requires Consistent(count, posted)
    ensures Consistent(count + 1, posted + (if count == 0 then [Attach] else []))
  {
  }

  /** OnClientDetached keeps the counter consistent when a client is attached. */
  lemma DetachStep(count: int, posted: seq<NetLogTask>)
    requires Consistent(count, posted) && count > 0
    ensures Consistent(count - 1, posted + (if count == 1 then [Detach] else []))
  {
  }

  class DevToolsManager {
    /** client_count_ */
    var clientCount: int
    /** every task posted to the IO thread, in order */
    var posted: seq<NetLogTask>

    ghost predicate Valid()
      reads this
    {
      Consistent(clientCount, posted)
    }

    /** devtools_manager_impl.cc:22-25: no clients, nothing posted. */
    constructor ()
      ensures Valid()
      ensures clientCount == 0 && posted == []
    {
      clientCount := 0;
      posted := [];
    }

    /** devtools_manager_impl.cc:31-39: the first client attaches the
        network-log observer; every client adds one to the count. */
    method OnClientAttached()
      requires Valid()
      modifies this
      ensures Valid()
      ensures clientCount == old(clientCount) + 1
      ensures posted == old(posted) + (if old(clientCount) == 0 then [Attach] else [])
    {
      AttachStep(clientCount, posted);
      if clientCount == 0 {
        posted := posted + [Attach];
      }
      clientCount := clientCount + 1;
    }

    /** devtools_manager_impl.cc:41-49: one client fewer; the last one to
        leave detaches the observer. The source does not guard against a
        detach with no client attached; callers must not do that. */
    method OnClientDetached()
      requires Valid()
      requires clientCount > 0
      modifies this
      ensures Valid()
      ensures clientCount == old(clientCount) - 1
      ensures posted == old(posted) + (if clientCount == 0 then [Detach] else [])
    {
      DetachStep(clientCount, posted);
      clientCount := clientCount - 1;
      if clientCount == 0 {
        posted := posted + [Detach];
      }
    }

    /** devtools_manager_impl.cc:27-29: the manager goes away only with no
        client attached, so every attach it posted was matched by a detach. */
    method Destroy()
      requires Valid()
      requires clientCount == 0
      ensures CountIf(posted, IsAttach) == CountIf(posted, IsDetach)
    {
      AlternatingCounts(posted);
    }
  }

  /** Two clients that attach and then detach share one observer: only the
      first attach and the last detach post a task. */
  method TwoClientsShareOneObserver() returns (afterJoin: seq<NetLogTask>, afterLeave: seq<NetLogTask>)
    ensures afterJoin == [Attach]
    ensures afterLeave == [Attach, Detach]
  {
    var m := new DevToolsManager();
    m.OnClientAttached();
    m.OnClientAttached();
    afterJoin := m.posted;
    m.OnClientDetached();
    m.OnClientDetached();
    afterLeave := m.posted;
    m.Destroy();
  }
}
