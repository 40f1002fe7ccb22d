/**
 * POST /appointment/submit and `save_appointment`: the submitted fields become a
 * record, and the record is appended to customers.jsonl as one line holding a
 * single entry keyed by the time stamp.
 */
module Appointments {
  import opened Wrappers
  import opened TimeFormat

  /** The four form fields the route copies; a field the form did not send is nil. */
  datatype Record = Record(name: Option<string>, phone: Option<string>, date: Option<string>, time: Option<string>)

  /** One line of customers.jsonl: the single-key object `{stamp => record}`. */
  datatype Line = Line(stamp: string, record: Record)

  /** The page the route renders after logging. */
  datatype Page = AppointmentSubmit(title: string, record: Record)

  /** One submission: the request parameters and the clock reading taken while saving it. */
  datatype Submission = Submission(params: map<string, string>, clock: Clock)

  const FieldNames := {"customer_name", "customer_phone", "appointment_date", "appointment_time"}

  function Param(params: map<string, string>, key: string): (v: Option<string>)
    ensures v.Some? <==> key in params
    ensures v.Some? ==> v.value == params[key]
  {
    if key in params then Some(params[key]) else None
  }

  /** The record the submit route builds from the request parameters: each form field by its own name. */
  function AppointmentRecord(params: map<string, string>): (r: Record)
    ensures r.name.Some? <==> "customer_name" in params
    ensures r.phone.Some? <==> "customer_phone" in params
    ensures r.date.Some? <==> "appointment_date" in params
    ensures r.time.Some? <==> "appointment_time" in params
    ensures r.name.Some? ==> r.name.value == params["customer_name"]
    ensures r.phone.Some? ==> r.phone.value == params["customer_phone"]
    ensures r.date.Some? ==> r.date.value == params["appointment_date"]
    ensures r.time.Some? ==> r.time.value == params["appointment_time"]
  {
    Record(Param(params, "customer_name"), Param(params, "customer_phone"),
           Param(params, "appointment_date"), Param(params, "appointment_time"))
  }

  /** The record holds exactly the four form fields: parameters outside them change nothing. */
  lemma RecordIgnoresOtherParams(params: map<string, string>, key: string, value: string)
    requires key !in FieldNames
    ensures AppointmentRecord(params[key := value]) == AppointmentRecord(params)
    ensures AppointmentRecord(params - {key}) == AppointmentRecord(params)
  {
  }

  /** The line one submission writes. */
  function LineFor(sub: Submission): Line
    requires ValidClock(sub.clock)
  {
    Line(TimeStamp(sub.clock), AppointmentRecord(sub.params))
  }

  predicate AllValid(subs: seq<Submission>) {
    forall i :: 0 <= i < |subs| ==> ValidClock(subs[i].clock)
  }

  /** The log after a run of submissions, each appending its line. */
  function Logged(log: seq<Line>, subs: seq<Submission>): (r: seq<Line>)
    requires AllValid(subs)
    ensures |r| == |log| + |subs|
    decreases |subs|
  {
    if subs == [] then log
    else Logged(log, subs[..|subs| - 1]) + [LineFor(subs[|subs| - 1])]
  }

  /**
   * N submissions add exactly N lines, in order, one per submission, and leave
   * the lines already in the log as they were.
   */
  lemma {:induction false} LoggedAppends(log: seq<Line>, subs: seq<Submission>)
    requires AllValid(subs)
    ensures |Logged(log, subs)| == |log| + |subs|
    ensures Logged(log, subs)[..|log|] == log
    ensures forall i :: 0 <= i < |subs| ==> Logged(log, subs)[|log| + i] == LineFor(subs[i])
    decreases |subs|
  {
    if subs != [] {
      var init := subs[..|subs| - 1];
      assert AllValid(init) by {
        forall i | 0 <= i < |init| ensures ValidClock(init[i].clock) {
          assert init[i] == subs[i];
        }
      }
      LoggedAppends(log, init);
    }
  }

  /**
   * Logging one run of submissions and then another is logging the two runs
   * together, so one call of `SubmitAppointment` per submission yields `Logged`
   * of the whole run.
   */
  lemma {:induction false} LoggedConcat(log: seq<Line>, a: seq<Submission>, b: seq<Submission>)
    requires AllValid(a) && AllValid(b)
    ensures AllValid(a + b)
    ensures Logged(Logged(log, a), b) == Logged(log, a + b)
    decreases |b|
  {
    AllValidConcat(a, b);
    if b == [] {
      assert a + b == a;
    } else {
      var init, last := b[..|b| - 1], b[|b| - 1];
      AllValidPrefix(b, |b| - 1);
      AllValidConcat(a, init);
      assert b == init + [last];
      assert a + b == (a + init) + [last];
      LoggedConcat(log, a, init);
      LoggedSnoc(Logged(log, a), init, last);
      LoggedSnoc(log, a + init, last);
    }
  }

  /** Logging one more submission appends its line. */
  lemma LoggedSnoc(log: seq<Line>, subs: seq<Submission>, sub: Submission)
    requires AllValid(subs) && ValidClock(sub.clock)
    ensures AllValid(subs + [sub])
    ensures Logged(log, subs + [sub]) == Logged(log, subs) + [LineFor(sub)]
  {
    var all := subs + [sub];
    assert all[..|all| - 1] == subs;
    assert forall i :: 0 <= i < |all| ==> all[i] == if i < |subs| then subs[i] else sub;
  }

  lemma AllValidPrefix(subs: seq<Submission>, k: nat)
    requires AllValid(subs) && k <= |subs|
    ensures AllValid(subs[..k])
  {
    assert forall i :: 0 <= i < k ==> subs[..k][i] == subs[i];
  }

  lemma AllValidConcat(a: seq<Submission>, b: seq<Submission>)
    requires AllValid(a) && AllValid(b)
    ensures AllValid(a + b)
  {
    forall i | 0 <= i < |a + b| ensures ValidClock((a + b)[i].clock) {
      if i < |a| { assert (a + b)[i] == a[i]; } else { assert (a + b)[i] == b[i - |a|]; }
    }
  }

  /** customers.jsonl, opened in append mode for every write. */
  class CustomersLog {
    var lines: seq<Line>

    constructor (existing: seq<Line>)
      ensures lines == existing
    {
      lines := existing;
    }

    /** `save_appointment`: append `{time_stamp => data}` as one line. */
    method SaveAppointment(data: Record, clock: Clock)
      requires ValidClock(clock)
      modifies this
      ensures lines == old(lines) + [Line(TimeStamp(clock), data)]
    {
      var buffer := Line(TimeStamp(clock), data);
      lines := lines + [buffer];
    }

    /** POST /appointment/submit. */
    method SubmitAppointment(params: map<string, string>, clock: Clock) returns (page: Page)
      requires ValidClock(clock)
      modifies this
      ensures lines == Logged(old(lines), [Submission(params, clock)])
      ensures page == AppointmentSubmit("Success!", AppointmentRecord(params))
    {
      var data := AppointmentRecord(params);
      SaveAppointment(data, clock);
      page := AppointmentSubmit("Success!", data);
    }
  }

  /** Two submissions against the existing file leave it as `Logged` of both, in order. */
  method TwoSubmissions(existing: seq<Line>, first: Submission, second: Submission) returns (lines: seq<Line>)
    requires ValidClock(first.clock) && ValidClock(second.clock)
    ensures AllValid([first, second])
    ensures lines == Logged(existing, [first, second])
  {
    var file := new CustomersLog(existing);
    var page1 := file.SubmitAppointment(first.params, first.clock);
    var page2 := file.SubmitAppointment(second.params, second.clock);
    LoggedConcat(existing, [first], [second]);
    assert [first] + [second] == [first, second];
    lines := file.lines;
  }
}
