/** The e-mail worker: the daily `check-reminders` pass over the events and
    the `send-email` dispatch. The job queue is a growing sequence of jobs. */
module EmailWorker {
  import opened Records
  import opened DocumentStore

  const CheckJob := "check-reminders"
  const SendJob := "send-email"

  /** The data a job carries: nothing for the daily check, and for a
      `send-email` job the reminder and the event snapshot taken when it was queued. */
  datatype JobData = NoData | SendData(reminder: Reminder, event: Event)

  datatype Job = Job(name: string, data: JobData)

  /** What the worker hands to the mailer for one `send-email` job. */
  datatype Mail = Mail(reminder: Reminder, event: Event)

  /** The e-mail queue: the jobs added so far, oldest first. */
  class EmailQueue {
    var jobs: seq<Job>

    constructor ()
      ensures jobs == []
    {
      jobs := [];
    }

    /** `emailQueue.add(name, data)`. */
    method Add(name: string, data: JobData)
      modifies this
      ensures jobs == old(jobs) + [Job(name, data)]
    {
      jobs := jobs + [Job(name, data)];
    }
  }

  /** A reminder the pass acts on: due today and not yet sent. */
  predicate Due(r: Reminder, today: string)
  {
    r.reminderTime == today && !r.sent
  }

  /** The store query `{"reminders.reminderTime": today, "reminders.sent": false}`:
      each condition may be met by a different reminder of the event. */
  predicate Selected(e: Event, today: string)
  {
    && (exists i :: 0 <= i < |e.reminders| && e.reminders[i].reminderTime == today)
    && (exists j :: 0 <= j < |e.reminders| && !e.reminders[j].sent)
  }

  /** The reminders after every due one has been marked sent. */
  function MarkDue(rs: seq<Reminder>, today: string): (r: seq<Reminder>)
    ensures |r| == |rs|
  {
    seq(|rs|, i requires 0 <= i < |rs| => if Due(rs[i], today) then rs[i].(sent := true) else rs[i])
  }

  /** After marking, a reminder is sent exactly when it was sent before or
      is for today, its time and address are kept, and none is still due. */
  lemma MarkDueMarks(rs: seq<Reminder>, today: string)
    ensures forall i :: 0 <= i < |rs| ==>
              && MarkDue(rs, today)[i].reminderTime == rs[i].reminderTime
              && MarkDue(rs, today)[i].email == rs[i].email
              && MarkDue(rs, today)[i].sent == (rs[i].sent || rs[i].reminderTime == today)
    ensures forall i :: 0 <= i < |rs| ==> !Due(MarkDue(rs, today)[i], today)
  {
  }

  /** Marking a list without due reminders changes nothing. */
  lemma MarkDueIdle(rs: seq<Reminder>, today: string)
    requires forall i :: 0 <= i < |rs| ==> !Due(rs[i], today)
    ensures MarkDue(rs, today) == rs
  {
    assert forall i :: 0 <= i < |rs| ==> MarkDue(rs, today)[i] == rs[i];
  }

  /** The in-memory event after the inner loop has visited its first `k`
      reminders. */
  function Partial(e: Event, today: string, k: nat): Event
    requires k <= |e.reminders|
  {
    e.(reminders := MarkDue(e.reminders[..k], today) + e.reminders[k..])
  }

  /** The event as the pass saves it. */
  function Marked(e: Event, today: string): (r: Event)
    ensures r == Partial(e, today, |e.reminders|)
  {
    assert e.reminders[..|e.reminders|] == e.reminders;
    e.(reminders := MarkDue(e.reminders, today))
  }

  /** The job the inner loop queues for reminder `k`, if it is due. */
  function JobAt(e: Event, today: string, k: nat): seq<Job>
    requires k < |e.reminders|
  {
    if Due(e.reminders[k], today)
    then [Job(SendJob, SendData(e.reminders[k], Partial(e, today, k)))]
    else []
  }

  /** The `send-email` jobs queued while visiting the first `k` reminders of
      `e`: one per due reminder, carrying that reminder and the in-memory
      event as it stood then. */
  function JobsFor(e: Event, today: string, k: nat): seq<Job>
    requires k <= |e.reminders|
  {
    if k == 0 then []
    else JobsFor(e, today, k - 1) + JobAt(e, today, k - 1)
  }

  /** The jobs the pass queues over `events`, in store order. */
  function PassJobs(events: seq<Event>, today: string): seq<Job>
  {
    if |events| == 0 then []
    else
      var e := events[|events| - 1];
      PassJobs(events[..|events| - 1], today) +
      (if Selected(e, today) then JobsFor(e, today, |e.reminders|) else [])
  }

  /** An event as the pass leaves it. */
  function Step(e: Event, today: string): Event
  {
    if Selected(e, today) then Marked(e, today) else e
  }

  /** The event collection after the pass. */
  function PassEvents(events: seq<Event>, today: string): (r: seq<Event>)
    ensures |r| == |events|
    ensures forall i :: 0 <= i < |events| ==> r[i] == Step(events[i], today)
  {
    if |events| == 0 then []
    else PassEvents(events[..|events| - 1], today) + [Step(events[|events| - 1], today)]
  }

  /** The ids of the events the pass saves, in store order: one per
      selected event. */
  function SavedIds(events: seq<Event>, today: string): seq<EventId>
  {
    if |events| == 0 then []
    else
      var e := events[|events| - 1];
      SavedIds(events[..|events| - 1], today) + (if Selected(e, today) then [e.id] else [])
  }

  /** The pass saves exactly the events the store query selects. */
  lemma {:induction false} SavedAreSelected(events: seq<Event>, today: string)
    ensures |SavedIds(events, today)| <= |events|
    ensures forall k :: 0 <= k < |SavedIds(events, today)| ==>
              exists i :: 0 <= i < |events| && events[i].id == SavedIds(events, today)[k] && Selected(events[i], today)
    ensures forall i :: 0 <= i < |events| && Selected(events[i], today) ==> events[i].id in SavedIds(events, today)
  {
    if |events| > 0 {
      var init := events[..|events| - 1];
      var e := events[|events| - 1];
      SavedAreSelected(init, today);
      var rest := SavedIds(init, today);
      var r := SavedIds(events, today);
      assert r == rest + (if Selected(e, today) then [e.id] else []);
      forall k | 0 <= k < |r|
        ensures exists i :: 0 <= i < |events| && events[i].id == r[k] && Selected(events[i], today)
      {
        if k < |rest| {
          assert r[k] == rest[k];
          var i :| 0 <= i < |init| && init[i].id == rest[k] && Selected(init[i], today);
          assert events[i] == init[i];
        } else {
          assert events[|events| - 1].id == r[k];
        }
      }
      forall i | 0 <= i < |events| && Selected(events[i], today) ensures events[i].id in r {
        if i < |init| {
          assert events[i] == init[i];
          assert events[i].id in rest;
        }
      }
    }
  }

  /** The due reminders of `rs`, in order. */
  function DueReminders(rs: seq<Reminder>, today: string): seq<Reminder>
  {
    if |rs| == 0 then []
    else DueReminders(rs[..|rs| - 1], today) + (if Due(rs[|rs| - 1], today) then [rs[|rs| - 1]] else [])
  }

  /** `DueReminders` holds every due reminder of the list and nothing else. */
  lemma {:induction false} DueRemindersAreDue(rs: seq<Reminder>, today: string)
    ensures forall k :: 0 <= k < |DueReminders(rs, today)| ==>
              Due(DueReminders(rs, today)[k], today) && DueReminders(rs, today)[k] in rs
    ensures forall i :: 0 <= i < |rs| && Due(rs[i], today) ==> rs[i] in DueReminders(rs, today)
  {
    if |rs| > 0 {
      var init := rs[..|rs| - 1];
      DueRemindersAreDue(init, today);
      var rest := DueReminders(init, today);
      var r := DueReminders(rs, today);
      assert r == rest + (if Due(rs[|rs| - 1], today) then [rs[|rs| - 1]] else []);
      forall k | 0 <= k < |r| ensures Due(r[k], today) && r[k] in rs {
        if k < |rest| {
          assert r[k] == rest[k] && rest[k] in init;
        }
      }
      forall i | 0 <= i < |rs| && Due(rs[i], today) ensures rs[i] in r {
        if i < |init| {
          assert rs[i] == init[i];
          assert init[i] in rest;
        }
      }
    }
  }

  /** The (event, reminder) pairs with both conditions on the same
      reminder: the due reminders of every event, event by event. */
  function AllDue(events: seq<Event>, today: string): seq<Reminder>
  {
    if |events| == 0 then []
    else
      var e := events[|events| - 1];
      AllDue(events[..|events| - 1], today) + DueReminders(e.reminders, today)
  }

  /** The reminders the `send-email` jobs carry, in queue order. */
  function Carried(jobs: seq<Job>): seq<Reminder>
  {
    if |jobs| == 0 then []
    else
      var j := jobs[|jobs| - 1];
      Carried(jobs[..|jobs| - 1]) + (if j.data.SendData? then [j.data.reminder] else [])
  }

  lemma {:induction false} CarriedAppend(a: seq<Job>, b: seq<Job>)
    ensures Carried(a + b) == Carried(a) + Carried(b)
    decreases |b|
  {
    if |b| > 0 {
      assert (a + b)[..|a + b| - 1] == a + b[..|b| - 1];
      CarriedAppend(a, b[..|b| - 1]);
    } else {
      assert a + b == a;
    }
  }

  /** The jobs for the first `k` reminders of an event carry exactly its due
      reminders among them, in order, one job each. */
  lemma JobsForCarryDue(e: Event, today: string, k: nat)
    requires k <= |e.reminders|
    ensures Carried(JobsFor(e, today, k)) == DueReminders(e.reminders[..k], today)
    ensures |JobsFor(e, today, k)| == |DueReminders(e.reminders[..k], today)|
    ensures forall n :: 0 <= n < |JobsFor(e, today, k)| ==> JobsFor(e, today, k)[n].name == SendJob
  {
    JobsForCarried(e, today, k);
    JobsForCount(e, today, k);
    JobsForNames(e, today, k);
  }

  lemma {:induction false} JobsForCarried(e: Event, today: string, k: nat)
    requires k <= |e.reminders|
    ensures Carried(JobsFor(e, today, k)) == DueReminders(e.reminders[..k], today)
  {
    if k > 0 {
      var rs := e.reminders;
      var earlier: seq<Job>, last: seq<Job> := JobsFor(e, today, k - 1), JobAt(e, today, k - 1);
      JobsForCarried(e, today, k - 1);
      assert JobsFor(e, today, k) == earlier + last;
      CarriedAppend(earlier, last);
      CarriedOne(last);
      assert rs[..k][..k - 1] == rs[..k - 1] && rs[..k][k - 1] == rs[k - 1];
      var due := if Due(rs[k - 1], today) then [rs[k - 1]] else [];
      assert Carried(last) == due;
      assert DueReminders(rs[..k], today) == DueReminders(rs[..k - 1], today) + due;
    }
  }

  lemma {:induction false} JobsForCount(e: Event, today: string, k: nat)
    requires k <= |e.reminders|
    ensures |JobsFor(e, today, k)| == |DueReminders(e.reminders[..k], today)|
  {
    if k > 0 {
      var rs := e.reminders;
      JobsForCount(e, today, k - 1);
      assert |JobsFor(e, today, k)| == |JobsFor(e, today, k - 1)| + |JobAt(e, today, k - 1)|;
      assert rs[..k][..k - 1] == rs[..k - 1] && rs[..k][k - 1] == rs[k - 1];
      var due := if Due(rs[k - 1], today) then [rs[k - 1]] else [];
      assert DueReminders(rs[..k], today) == DueReminders(rs[..k - 1], today) + due;
    }
  }

  lemma {:induction false} JobsForNames(e: Event, today: string, k: nat)
    requires k <= |e.reminders|
    ensures forall n :: 0 <= n < |JobsFor(e, today, k)| ==> JobsFor(e, today, k)[n].name == SendJob
  {
    if k > 0 {
      var earlier: seq<Job>, last: seq<Job> := JobsFor(e, today, k - 1), JobAt(e, today, k - 1);
      JobsForNames(e, today, k - 1);
      assert JobsFor(e, today, k) == earlier + last;
      forall n | 0 <= n < |earlier + last| ensures (earlier + last)[n].name == SendJob {
        if n < |earlier| {
          assert (earlier + last)[n] == earlier[n];
        }
      }
    }
  }

  /** The reminders carried by at most one job. */
  lemma CarriedOne(jobs: seq<Job>)
    requires |jobs| <= 1
    ensures Carried(jobs) == if |jobs| == 1 && jobs[0].data.SendData? then [jobs[0].data.reminder] else []
  {
    if |jobs| == 1 {
      assert jobs[..0] == [];
    }
  }

  /** An event the query does not select has no due reminder. */
  lemma UnselectedHasNoDue(e: Event, today: string)
    requires !Selected(e, today)
    ensures forall i :: 0 <= i < |e.reminders| ==> !Due(e.reminders[i], today)
  {
  }

  /** A list with no due reminder has none to report. */
  lemma {:induction false} NoDueReminders(rs: seq<Reminder>, today: string)
    requires forall i :: 0 <= i < |rs| ==> !Due(rs[i], today)
    ensures DueReminders(rs, today) == []
  {
    if |rs| > 0 {
      NoDueReminders(rs[..|rs| - 1], today);
    }
  }

  /** The pass queues one job per (event, reminder) pair that meets both
      conditions on the same reminder, and those jobs carry exactly those
      reminders, in store order: the extra events the query selects add
      nothing. */
  lemma {:induction false} PassJobsAreDue(events: seq<Event>, today: string)
    ensures Carried(PassJobs(events, today)) == AllDue(events, today)
    ensures |PassJobs(events, today)| == |AllDue(events, today)|
  {
    if |events| > 0 {
      var init := events[..|events| - 1];
      var e := events[|events| - 1];
      PassJobsAreDue(init, today);
      JobsForCarryDue(e, today, |e.reminders|);
      assert e.reminders[..|e.reminders|] == e.reminders;
      if Selected(e, today) {
        CarriedAppend(PassJobs(init, today), JobsFor(e, today, |e.reminders|));
      } else {
        UnselectedHasNoDue(e, today);
        NoDueReminders(e.reminders, today);
        assert PassJobs(events, today) == PassJobs(init, today);
      }
    }
  }

  /** Marking an event the query does not select changes nothing, so the
      pass leaves every event as `Marked` would. */
  lemma StepIsMarked(e: Event, today: string)
    ensures Step(e, today) == Marked(e, today)
  {
    if !Selected(e, today) {
      UnselectedHasNoDue(e, today);
      MarkDueIdle(e.reminders, today);
    }
  }

  /** An event with no due reminder queues no job. */
  lemma {:induction false} NoDueNoJobs(e: Event, today: string, k: nat)
    requires k <= |e.reminders|
    requires forall i :: 0 <= i < |e.reminders| ==> !Due(e.reminders[i], today)
    ensures JobsFor(e, today, k) == []
  {
    if k > 0 {
      NoDueNoJobs(e, today, k - 1);
    }
  }

  /** A second pass on the same day queues nothing: every reminder the first
      pass could send is already marked sent. */
  lemma {:induction false} SecondPassQueuesNothing(events: seq<Event>, today: string)
    ensures PassJobs(PassEvents(events, today), today) == []
  {
    var after := PassEvents(events, today);
    if |events| > 0 {
      var init := events[..|events| - 1];
      assert after[..|after| - 1] == PassEvents(init, today);
      SecondPassQueuesNothing(init, today);
      var e := after[|after| - 1];
      StepIsMarked(events[|events| - 1], today);
      NoDueNoJobs(e, today, |e.reminders|);
    }
  }

  /** The pass is idempotent on the store: a second pass leaves the events
      as the first left them. */
  lemma SecondPassChangesNothing(events: seq<Event>, today: string)
    ensures PassEvents(PassEvents(events, today), today) == PassEvents(events, today)
  {
    var after := PassEvents(events, today);
    forall i | 0 <= i < |after| ensures Step(after[i], today) == after[i] {
      StepIsMarked(events[i], today);
      StepIsMarked(after[i], today);
      MarkDueMarks(events[i].reminders, today);
      MarkDueIdle(after[i].reminders, today);
    }
  }

  /** The pass changes no event field other than the `sent` flags of
      reminders: every due reminder is sent afterwards, and every other
      reminder keeps all its fields. */
  lemma PassOnlyMarksDue(events: seq<Event>, today: string)
    ensures |PassEvents(events, today)| == |events|
    ensures forall i :: 0 <= i < |events| ==>
              var after := PassEvents(events, today)[i];
              && after.(reminders := events[i].reminders) == events[i]
              && |after.reminders| == |events[i].reminders|
              && forall k :: 0 <= k < |events[i].reminders| ==>
                   if Due(events[i].reminders[k], today)
                   then after.reminders[k] == events[i].reminders[k].(sent := true)
                   else after.reminders[k] == events[i].reminders[k]
  {
    forall i | 0 <= i < |events| {
      StepIsMarked(events[i], today);
    }
  }

  /** Event ids are unique, so no event is saved twice in one pass. */
  lemma {:induction false} SavedOnce(events: seq<Event>, today: string)
    requires forall i, j :: 0 <= i < j < |events| ==> events[i].id != events[j].id
    ensures forall a, b :: 0 <= a < b < |SavedIds(events, today)| ==>
              SavedIds(events, today)[a] != SavedIds(events, today)[b]
  {
    if |events| > 0 {
      var init := events[..|events| - 1];
      var e := events[|events| - 1];
      SavedOnce(init, today);
      SavedAreSelected(init, today);
      var rest := SavedIds(init, today);
      forall k | 0 <= k < |rest| ensures rest[k] != e.id {
        var i :| 0 <= i < |init| && init[i].id == rest[k] && Selected(init[i], today);
        assert init[i] == events[i];
      }
      var r := SavedIds(events, today);
      assert r == rest + (if Selected(e, today) then [e.id] else []);
      forall a, b | 0 <= a < b < |r| ensures r[a] != r[b] {
        assert r[a] == rest[a];
        if b < |rest| {
          assert r[b] == rest[b];
        } else {
          assert r[b] == e.id;
        }
      }
    }
  }

  /** One inner-loop step moves the in-memory event from `k` to `k + 1`
      visited reminders. */
  lemma PartialStep(e: Event, today: string, k: nat)
    requires k < |e.reminders|
    ensures var p := Partial(e, today, k);
            && |p.reminders| == |e.reminders| && p.reminders[k] == e.reminders[k]
            && Partial(e, today, k + 1) ==
                 if Due(e.reminders[k], today)
                 then p.(reminders := p.reminders[k := e.reminders[k].(sent := true)])
                 else p
  {
    var rs := e.reminders;
    var p := Partial(e, today, k);
    var q := Partial(e, today, k + 1);
    var target := if Due(rs[k], today) then p.reminders[k := rs[k].(sent := true)] else p.reminders;
    assert |q.reminders| == |target| == |rs|;
    forall i | 0 <= i < |rs| ensures q.reminders[i] == target[i] {
      if i < k {
        assert q.reminders[i] == MarkDue(rs[..k + 1], today)[i];
        assert p.reminders[i] == MarkDue(rs[..k], today)[i];
        assert rs[..k + 1][i] == rs[..k][i];
      } else if i == k {
        assert q.reminders[i] == MarkDue(rs[..k + 1], today)[k];
        assert rs[..k + 1][k] == rs[k];
        assert p.reminders[k] == rs[k];
      } else {
        assert q.reminders[i] == rs[i] && p.reminders[i] == rs[i];
      }
    }
    assert q.reminders == target;
  }

  /** Queuing the job of the first unvisited reminder, if it is due, extends
      the queue by that reminder's share of the inner loop. */
  lemma AdvanceDue(jobs0: seq<Job>, e: Event, today: string, j: nat, before: seq<Job>, after: seq<Job>)
    requires j < |e.reminders|
    requires before == jobs0 + JobsFor(e, today, j)
    requires after == before + JobAt(e, today, j)
    ensures after == jobs0 + JobsFor(e, today, j + 1)
  {
    Associative(jobs0, JobsFor(e, today, j), JobAt(e, today, j));
  }

  /** One step of the inner loop: a due reminder is queued with the
      in-memory event as it stands, then marked sent. */
  method VisitReminder(queue: EmailQueue, e: Event, today: string, j: nat, ev: Event) returns (ev': Event)
    requires j < |e.reminders| && ev == Partial(e, today, j)
    modifies queue
    ensures ev' == Partial(e, today, j + 1)
    ensures queue.jobs == old(queue.jobs) + JobAt(e, today, j)
  {
    PartialStep(e, today, j);
    var r := ev.reminders[j];
    ev' := ev;
    if r.reminderTime == today && !r.sent {
      queue.Add(SendJob, SendData(r, ev));
      ev' := ev.(reminders := ev.reminders[j := r.(sent := true)]);
    }
  }

  /** No reminder visited: the in-memory event is the stored one. */
  lemma PartialStart(e: Event, today: string)
    ensures Partial(e, today, 0) == e
  {
    assert e.reminders[..0] == [] && e.reminders[0..] == e.reminders;
    assert MarkDue([], today) == [];
  }

  /** The inner loop of the pass over one event's reminders: each due
      reminder is queued with the in-memory event as it stands, then marked
      sent. The result is the event to save. */
  method QueueDue(queue: EmailQueue, e: Event, today: string) returns (ev: Event)
    modifies queue
    ensures ev == Marked(e, today)
    ensures queue.jobs == old(queue.jobs) + JobsFor(e, today, |e.reminders|)
  {
    ev := e;
    var j := 0;
    PartialStart(e, today);
    while j < |e.reminders|
      invariant 0 <= j <= |e.reminders|
      invariant ev == Partial(e, today, j)
      invariant queue.jobs == old(queue.jobs) + JobsFor(e, today, j)
    {
      ghost var queued := queue.jobs;
      ev := VisitReminder(queue, e, today, j, ev);
      AdvanceDue(old(queue.jobs), e, today, j, queued, queue.jobs);
      j := j + 1;
    }
  }

  /** The pass over one more event extends each of its results by that
      event's share. */
  lemma PassPrefix(events: seq<Event>, i: nat, today: string)
    requires i < |events|
    ensures PassEvents(events[..i + 1], today) == PassEvents(events[..i], today) + [Step(events[i], today)]
    ensures PassJobs(events[..i + 1], today) ==
              PassJobs(events[..i], today) +
              (if Selected(events[i], today) then JobsFor(events[i], today, |events[i].reminders|) else [])
    ensures SavedIds(events[..i + 1], today) ==
              SavedIds(events[..i], today) + (if Selected(events[i], today) then [events[i].id] else [])
  {
    assert events[..i + 1][..i] == events[..i];
  }

  /** Replacing the first element after a prefix moves it into the prefix. */
  lemma Splice<T>(done: seq<T>, s: seq<T>, i: nat, x: T)
    requires i < |s| && |done| == i
    ensures (done + s[i..])[i] == s[i]
    ensures (done + s[i..])[i := x] == (done + [x]) + s[i + 1..]
  {
    var u := (done + s[i..])[i := x];
    var v := (done + [x]) + s[i + 1..];
    assert |u| == |v|;
    forall k | 0 <= k < |u| ensures u[k] == v[k] {
      if k > i {
        assert u[k] == s[k] && v[k] == s[k];
      }
    }
  }

  /** Updating the first unvisited event advances the visited prefix by one. */
  lemma AdvanceEvents(events0: seq<Event>, i: nat, today: string, before: seq<Event>, after: seq<Event>)
    requires i < |events0|
    requires before == PassEvents(events0[..i], today) + events0[i..]
    requires |before| == |events0| && after == before[i := Step(before[i], today)]
    ensures after == PassEvents(events0[..i + 1], today) + events0[i + 1..]
  {
    PassPrefix(events0, i, today);
    Splice(PassEvents(events0[..i], today), events0, i, Step(events0[i], today));
  }

  /** Queuing the jobs of the first unvisited event extends the queue by
      that event's share of the pass. */
  lemma AdvanceJobs(jobs0: seq<Job>, events0: seq<Event>, i: nat, today: string,
                    before: seq<Job>, after: seq<Job>)
    requires i < |events0|
    requires before == jobs0 + PassJobs(events0[..i], today)
    requires after == before +
               (if Selected(events0[i], today) then JobsFor(events0[i], today, |events0[i].reminders|) else [])
    ensures after == jobs0 + PassJobs(events0[..i + 1], today)
  {
    PassPrefix(events0, i, today);
    var share := if Selected(events0[i], today) then JobsFor(events0[i], today, |events0[i].reminders|) else [];
    Associative(jobs0, PassJobs(events0[..i], today), share);
  }

  lemma Associative<T>(a: seq<T>, b: seq<T>, c: seq<T>)
    ensures (a + b) + c == a + (b + c)
  {
  }

  /** One iteration of the outer loop: an event the query selected has its
      due reminders queued and is saved; any other event is left alone. */
  method VisitEvent(db: Store, queue: EmailQueue, i: nat, today: string) returns (saved: seq<EventId>)
    requires db.Valid() && i < |db.events|
    modifies db, queue
    ensures db.Valid()
    ensures db.events == old(db.events)[i := Step(old(db.events)[i], today)]
    ensures var e := old(db.events)[i];
            && queue.jobs == old(queue.jobs) + (if Selected(e, today) then JobsFor(e, today, |e.reminders|) else [])
            && saved == (if Selected(e, today) then [e.id] else [])
    ensures db.users == old(db.users) && db.organizers == old(db.organizers)
    ensures db.attendees == old(db.attendees) && db.tickets == old(db.tickets)
    ensures db.nextId == old(db.nextId)
  {
    var e := db.events[i];
    saved := [];
    if Selected(e, today) {
      var ev := QueueDue(queue, e, today);
      db.PutEvent(i, ev);
      saved := [ev.id];
    }
  }

  /** The `check-reminders` branch: for every event the query selects, in
      store order, each due reminder gets a `send-email` job carrying it and
      the in-memory event, and is then marked sent; the event is saved once
      after its inner loop. Users, profiles and tickets are untouched. */
  method CheckReminders(db: Store, queue: EmailQueue, today: string) returns (saved: seq<EventId>)
    requires db.Valid()
    modifies db, queue
    ensures db.Valid()
    ensures db.events == PassEvents(old(db.events), today)
    ensures queue.jobs == old(queue.jobs) + PassJobs(old(db.events), today)
    ensures saved == SavedIds(old(db.events), today)
    ensures db.users == old(db.users) && db.organizers == old(db.organizers)
    ensures db.attendees == old(db.attendees) && db.tickets == old(db.tickets)
    ensures db.nextId == old(db.nextId)
  {
    ghost var events0 := db.events;
    saved := [];
    var i := 0;
    assert PassEvents(events0[..0], today) + events0[0..] == events0;
    while i < |db.events|
      invariant |db.events| == |events0| && 0 <= i <= |events0|
      invariant db.Valid()
      invariant db.events == PassEvents(events0[..i], today) + events0[i..]
      invariant queue.jobs == old(queue.jobs) + PassJobs(events0[..i], today)
      invariant saved == SavedIds(events0[..i], today)
      invariant db.users == old(db.users) && db.organizers == old(db.organizers)
      invariant db.attendees == old(db.attendees) && db.tickets == old(db.tickets)
      invariant db.nextId == old(db.nextId)
    {
      PassPrefix(events0, i, today);
      Splice(PassEvents(events0[..i], today), events0, i, Step(events0[i], today));
      ghost var before, queued := db.events, queue.jobs;
      var savedHere := VisitEvent(db, queue, i, today);
      AdvanceEvents(events0, i, today, before, db.events);
      AdvanceJobs(old(queue.jobs), events0, i, today, queued, queue.jobs);
      saved := saved + savedHere;
      i := i + 1;
    }
    assert events0[..i] == events0;
  }

  /** The worker's job handler: `check-reminders` runs the pass,
      `send-email` hands its reminder and event snapshot to the mailer, and
      any other job does nothing. */
  method ProcessJob(db: Store, queue: EmailQueue, job: Job, today: string) returns (mail: Option<Mail>)
    requires db.Valid()
    modifies db, queue
    ensures db.Valid()
    ensures job.name == CheckJob ==>
              && mail.None?
              && db.events == PassEvents(old(db.events), today)
              && queue.jobs == old(queue.jobs) + PassJobs(old(db.events), today)
              && db.users == old(db.users) && db.organizers == old(db.organizers)
              && db.attendees == old(db.attendees) && db.tickets == old(db.tickets)
              && db.nextId == old(db.nextId)
    ensures job.name != CheckJob ==> unchanged(db) && unchanged(queue)
    ensures mail.Some? <==> job.name == SendJob && job.data.SendData?
    ensures mail.Some? ==> mail.value == Mail(job.data.reminder, job.data.event)
  {
    mail := None;
    if job.name == CheckJob {
      var _ := CheckReminders(db, queue, today);
    } else if job.name == SendJob && job.data.SendData? {
      mail := Some(Mail(job.data.reminder, job.data.event));
    }
  }

  /** Two passes on the same day queue each due reminder once in total. */
  method TwoPasses(db: Store, queue: EmailQueue, today: string)
    requires db.Valid()
    modifies db, queue
    ensures queue.jobs == old(queue.jobs) + PassJobs(old(db.events), today)
    ensures Carried(queue.jobs[|old(queue.jobs)|..]) == AllDue(old(db.events), today)
  {
    ghost var events0, jobs0 := db.events, queue.jobs;
    var _ := CheckReminders(db, queue, today);
    ghost var mid := queue.jobs;
    SecondPassQueuesNothing(events0, today);
    var _ := CheckReminders(db, queue, today);
    assert queue.jobs == mid + [] == mid;
    PassJobsAreDue(events0, today);
    assert queue.jobs[|jobs0|..] == PassJobs(events0, today);
  }
}
