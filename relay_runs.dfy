/** What a sequence of change events does to the outbox table and to the
    relay's effect log, one debeziumHandler call per event, in arrival
    order: the properties that relate several requests. */
module RelayRuns {
  import opened Wrappers
  import opened Relay

  /** The relay's state between requests: the outbox table and the effect log. */
  datatype State = State(outbox: map<int, OutboxRow>, log: seq<Effect>)

  /** One handler call, on values: what RelayServer.HandleDebezium does to its fields. */
  function Handle(url: string, libs: Libraries, s: State, io: Io): State {
    var st := Dispatch(libs, io);
    State(Apply(s.outbox, st, io), s.log + Effects(url, st, io))
  }

  /** The handler called once per request of `ios`, in order. */
  function Run(url: string, libs: Libraries, s: State, ios: seq<Io>): State
    decreases |ios|
  {
    if ios == [] then s else Run(url, libs, Handle(url, libs, s, ios[0]), ios[1..])
  }

  /** The log only grows: what was recorded stays recorded. */
  lemma {:induction false} RunExtendsLog(url: string, libs: Libraries, s: State, ios: seq<Io>)
    ensures |s.log| <= |Run(url, libs, s, ios).log|
    ensures Run(url, libs, s, ios).log[..|s.log|] == s.log
    decreases |ios|
  {
    if ios != [] {
      var s1 := Handle(url, libs, s, ios[0]);
      RunExtendsLog(url, libs, s1, ios[1..]);
      assert s1.log[..|s.log|] == s.log;
    }
  }

  /** Over any number of requests, every outbox UPDATE in the log comes
      right after a successful webhook call. */
  lemma {:induction false} RunKeepsOrdering(url: string, libs: Libraries, s: State, ios: seq<Io>)
    requires PublishFollowsDelivery(s.log)
    ensures PublishFollowsDelivery(Run(url, libs, s, ios).log)
    decreases |ios|
  {
    if ios != [] {
      DispatchKeepsOrdering(s.log, url, libs, ios[0]);
      RunKeepsOrdering(url, libs, Handle(url, libs, s, ios[0]), ios[1..]);
    }
  }

  /** The relay neither inserts nor deletes outbox rows, and the only
      change it makes to a row is to mark it published: aggregate id,
      payload and creation time stay as they were. */
  lemma {:induction false} RunOnlyPublishes(url: string, libs: Libraries, s: State, ios: seq<Io>)
    ensures Run(url, libs, s, ios).outbox.Keys == s.outbox.Keys
    ensures forall id :: id in s.outbox ==>
      var row := Run(url, libs, s, ios).outbox[id];
      row == s.outbox[id] ||
      (row.status == PublishedStatus && row.publishedAt.Some? &&
       row.(status := s.outbox[id].status, publishedAt := s.outbox[id].publishedAt) == s.outbox[id])
    decreases |ios|
  {
    if ios != [] {
      var s1 := Handle(url, libs, s, ios[0]);
      RunOnlyPublishes(url, libs, s1, ios[1..]);
    }
  }

  /** A published row stays published whatever events follow. */
  lemma {:induction false} RunNeverUnpublishes(url: string, libs: Libraries, s: State, ios: seq<Io>, id: int)
    requires id in s.outbox && s.outbox[id].status == PublishedStatus
    ensures id in Run(url, libs, s, ios).outbox
    ensures Run(url, libs, s, ios).outbox[id].status == PublishedStatus
    decreases |ios|
  {
    if ios != [] {
      RunNeverUnpublishes(url, libs, Handle(url, libs, s, ios[0]), ios[1..], id);
    }
  }

  /** A row that becomes published during a run was published by an UPDATE
      of that row which the database accepted and which the log records
      right after a successful webhook call. */
  lemma {:induction false} RunPublishedOnlyAfterDelivery(url: string, libs: Libraries, s: State, ios: seq<Io>, id: int)
    requires id in s.outbox && s.outbox[id].status != PublishedStatus
    ensures id in Run(url, libs, s, ios).outbox && Run(url, libs, s, ios).outbox[id].status == PublishedStatus ==>
      exists i :: (|s.log| < i < |Run(url, libs, s, ios).log| &&
                   Run(url, libs, s, ios).log[i] == OutboxUpdate(id, ExecOk) &&
                   Delivered(Run(url, libs, s, ios).log[i - 1]))
    decreases |ios|
  {
    var t := Run(url, libs, s, ios);
    if ios != [] && id in t.outbox && t.outbox[id].status == PublishedStatus {
      var io := ios[0];
      var st := Dispatch(libs, io);
      var s1 := Handle(url, libs, s, io);
      RunExtendsLog(url, libs, s1, ios[1..]);
      if s1.outbox[id].status == PublishedStatus {
        // the first request published it
        assert st.publish == Some(id) && io.exec.ExecOk?;
        var es := Effects(url, st, io);
        assert es == [WebhookPost(url, st.delivery.value, io.webhook), OutboxUpdate(id, ExecOk)];
        var i := |s.log| + 1;
        assert t.log[..|s1.log|] == s1.log;
        assert t.log[i] == s1.log[i] == OutboxUpdate(id, ExecOk);
        assert t.log[i - 1] == s1.log[i - 1] == es[0];
      } else {
        RunPublishedOnlyAfterDelivery(url, libs, s1, ios[1..], id);
      }
    }
  }
}
