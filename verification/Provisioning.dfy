/** ensureStream: a stream is created with the requested subjects, or the ones it does not cover
    yet are appended. The transport's mutex serialises the calls of one transport; a stream's
    configuration changes through these calls only. Every server call can fail, and a create or
    update can take effect although the caller is told that it failed. */
module Provisioning {
  import opened Subjects

  /** The replies of one round of server calls. */
  datatype Fault = Fault(infoFails: bool, write: WriteReply)
  datatype WriteReply = Applied | AppliedLost | Rejected

  const NO_FAULT := Fault(false, Applied)

  datatype InfoReply = NotFound | Configured(subjects: seq<string>) | InfoError
  datatype AddReply = Added | NameInUse | AddError
  datatype Outcome = Provisioned | Failed | Conflict

  /** The server's side: subjects by stream name. */
  class Server {
    var streams: map<string, seq<string>>

    constructor ()
      ensures streams == map[]
    {
      streams := map[];
    }

    method StreamInfo(name: string, f: Fault) returns (r: InfoReply)
      ensures r == if f.infoFails then InfoError
                   else if name in streams then Configured(streams[name]) else NotFound
    {
      if f.infoFails {
        return InfoError;
      }
      return if name in streams then Configured(streams[name]) else NotFound;
    }

    method AddStream(name: string, subjects: seq<string>, f: Fault) returns (r: AddReply)
      modifies this
      ensures r == if name in old(streams) then NameInUse else if f.write.Applied? then Added else AddError
      ensures streams == if name in old(streams) || f.write.Rejected? then old(streams)
                         else old(streams)[name := subjects]
    {
      if name in streams {
        return NameInUse;
      }
      if !f.write.Rejected? {
        streams := streams[name := subjects];
      }
      return if f.write.Applied? then Added else AddError;
    }

    method UpdateStream(name: string, subjects: seq<string>, f: Fault) returns (ok: bool)
      requires name in streams
      modifies this
      ensures ok == f.write.Applied?
      ensures streams == if f.write.Rejected? then old(streams) else old(streams)[name := subjects]
    {
      if !f.write.Rejected? {
        streams := streams[name := subjects];
      }
      return f.write.Applied?;
    }
  }

  // ---------------------------------------------------------------------------------------
  // Specification

  /** Some configured subject equals or covers `subject`. */
  predicate Served(configured: seq<string>, subject: string) {
    exists i :: 0 <= i < |configured| && Covers(configured[i], subject)
  }

  predicate AllServed(configured: seq<string>, subjects: seq<string>) {
    forall i :: 0 <= i < |subjects| ==> Served(configured, subjects[i])
  }

  /** The configured subjects after appending, in order, those that are not served yet. */
  function AppendMissing(configured: seq<string>, subjects: seq<string>): seq<string>
    decreases |subjects|
  {
    if subjects == [] then configured
    else AppendMissing(
           if Served(configured, subjects[0]) then configured else configured + [subjects[0]], subjects[1..])
  }

  /** Adding `added` one by one, each subject is not served yet when it is added. */
  predicate Extends(configured: seq<string>, added: seq<string>)
    decreases |added|
  {
    added == [] || (!Served(configured, added[0]) && Extends(configured + [added[0]], added[1..]))
  }

  lemma ServedStays(c: seq<string>, c': seq<string>, subject: string)
    requires c <= c' && Served(c, subject)
    ensures Served(c', subject)
  {
    var i :| 0 <= i < |c| && Covers(c[i], subject);
    assert Covers(c'[i], subject);
  }

  lemma SelfServed(c: seq<string>, i: nat)
    requires i < |c|
    ensures Served(c, c[i])
  {
    assert Covers(c[i], c[i]);
  }

  /** Appending keeps what is configured and serves every requested subject. */
  lemma {:induction false} AppendMissingServes(c: seq<string>, subjects: seq<string>)
    ensures c <= AppendMissing(c, subjects)
    ensures AllServed(AppendMissing(c, subjects), subjects)
    decreases |subjects|
  {
    if subjects != [] {
      var r := AppendMissing(c, subjects);
      var c1 := if Served(c, subjects[0]) then c else c + [subjects[0]];
      AppendMissingServes(c1, subjects[1..]);
      if c1 != c {
        SelfServed(c1, |c|);
      }
      ServedStays(c1, r, subjects[0]);
      forall i | 0 <= i < |subjects| ensures Served(r, subjects[i]) {
        assert i > 0 ==> subjects[1..][i - 1] == subjects[i];
      }
    }
  }

  /** The subjects a call appends. */
  function Missing(c: seq<string>, subjects: seq<string>): seq<string>
    decreases |subjects|
  {
    if subjects == [] then []
    else if Served(c, subjects[0]) then Missing(c, subjects[1..])
    else [subjects[0]] + Missing(c + [subjects[0]], subjects[1..])
  }

  lemma Reassociate(c: seq<string>, x: string, rest: seq<string>)
    ensures c + [x] + rest == c + ([x] + rest)
  {
  }

  lemma {:induction false} AppendMissingIs(c: seq<string>, subjects: seq<string>)
    ensures AppendMissing(c, subjects) == c + Missing(c, subjects)
    decreases |subjects|
  {
    if subjects != [] {
      if Served(c, subjects[0]) {
        AppendMissingIs(c, subjects[1..]);
      } else {
        AppendMissingIs(c + [subjects[0]], subjects[1..]);
        Reassociate(c, subjects[0], Missing(c + [subjects[0]], subjects[1..]));
      }
    }
  }

  /** Each of them was not served at the moment it was appended. */
  lemma {:induction false} MissingExtends(c: seq<string>, subjects: seq<string>)
    ensures Extends(c, Missing(c, subjects))
    decreases |subjects|
  {
    if subjects != [] {
      if Served(c, subjects[0]) {
        MissingExtends(c, subjects[1..]);
      } else {
        MissingExtends(c + [subjects[0]], subjects[1..]);
        assert Missing(c, subjects)[1..] == Missing(c + [subjects[0]], subjects[1..]);
      }
    }
  }

  /** And each was requested. */
  lemma {:induction false} MissingRequested(c: seq<string>, subjects: seq<string>, x: string)
    requires x in Missing(c, subjects)
    ensures x in subjects
    decreases |subjects|
  {
    if x != subjects[0] {
      MissingRequested(if Served(c, subjects[0]) then c else c + [subjects[0]], subjects[1..], x);
    }
  }

  /** Nothing is appended when everything is served. */
  lemma {:induction false} NothingMissing(c: seq<string>, subjects: seq<string>)
    requires AllServed(c, subjects)
    ensures AppendMissing(c, subjects) == c
    decreases |subjects|
  {
    if subjects != [] {
      assert Served(c, subjects[0]);
      forall i | 0 <= i < |subjects[1..]| ensures Served(c, subjects[1..][i]) {
        assert subjects[1..][i] == subjects[i + 1];
      }
      NothingMissing(c, subjects[1..]);
    }
  }

  /** Asking twice appends once. */
  lemma AppendIdempotent(c: seq<string>, subjects: seq<string>)
    ensures AppendMissing(AppendMissing(c, subjects), subjects) == AppendMissing(c, subjects)
  {
    AppendMissingServes(c, subjects);
    NothingMissing(AppendMissing(c, subjects), subjects);
  }

  // ---------------------------------------------------------------------------------------
  // The provisioning loop

  /** The inner loop: is the subject served by a configured one? */
  method FindServing(configured: seq<string>, subject: string) returns (found: bool)
    ensures found == Served(configured, subject)
  {
    found := false;
    var j := 0;
    while j < |configured| && !found
      invariant 0 <= j <= |configured|
      invariant found <==> exists k :: 0 <= k < j && Covers(configured[k], subject)
    {
      found := SubjectPatternCovers(configured[j], subject);
      j := j + 1;
    }
  }

  /** The outer loop over the requested subjects. */
  method AddMissing(configured: seq<string>, subjects: seq<string>) returns (merged: seq<string>, updated: bool)
    ensures merged == AppendMissing(configured, subjects)
    ensures updated <==> !AllServed(configured, subjects)
  {
    merged, updated := configured, false;
    ghost var goal := AppendMissing(configured, subjects);
    var i := 0;
    assert subjects[0..] == subjects;
    while i < |subjects|
      invariant 0 <= i <= |subjects|
      invariant goal == AppendMissing(merged, subjects[i..])
      invariant updated <==> merged != configured
      invariant configured <= merged
    {
      var found := FindServing(merged, subjects[i]);
      assert subjects[i..][1..] == subjects[i + 1..];
      if !found {
        merged, updated := merged + [subjects[i]], true;
      }
      i := i + 1;
    }
    if !updated {
      AppendMissingServes(configured, subjects);
    } else if AllServed(configured, subjects) {
      NothingMissing(configured, subjects);
    }
  }

  ghost predicate Serves(streams: map<string, seq<string>>, name: string, subjects: seq<string>) {
    subjects == [] || (name in streams && AllServed(streams[name], subjects))
  }

  /** What a call may make of the server's configuration. */
  ghost predicate Outcomes(before: map<string, seq<string>>, after: map<string, seq<string>>,
                           name: string, subjects: seq<string>) {
    || after == before
    || after == before[name := if name in before then AppendMissing(before[name], subjects) else subjects]
  }

  /** Success means every requested subject is served; the repeated-change conflict never occurs;
      a call that finds everything served changes nothing; without faults the call succeeds. */
  method EnsureStream(server: Server, name: string, subjects: seq<string>, faults: seq<Fault>) returns (o: Outcome)
    requires |faults| == 3
    modifies server
    ensures Outcomes(old(server.streams), server.streams, name, subjects)
    ensures o == Provisioned ==> Serves(server.streams, name, subjects)
    ensures o != Conflict
    ensures (forall i :: 0 <= i < 3 ==> faults[i] == NO_FAULT) ==> o == Provisioned
    ensures Serves(old(server.streams), name, subjects) ==> server.streams == old(server.streams)
  {
    if |subjects| == 0 {
      return Provisioned;
    }
    var round := 0;
    while round < 3
      invariant 0 <= round <= 3
      invariant round == 0 ==> server.streams == old(server.streams)
      invariant round > 0 ==> round == 1 && name in old(server.streams)
      invariant round > 0 ==> !AllServed(old(server.streams[name]), subjects)
      invariant round > 0 ==>
        server.streams == old(server.streams)[name := AppendMissing(old(server.streams[name]), subjects)]
    {
      var info := server.StreamInfo(name, faults[round]);
      if info.NotFound? {
        var added := server.AddStream(name, subjects, faults[round]);
        if added.Added? {
          CreatedServes(subjects);
          return Provisioned;
        }
        if !added.NameInUse? {
          return Failed;
        }
      } else if info.InfoError? {
        return Failed;
      } else {
        if round == 1 {
          AppendMissingServes(old(server.streams[name]), subjects);
        }
        var merged, updated := AddMissing(info.subjects, subjects);
        if !updated {
          return Provisioned;
        }
        var ok := server.UpdateStream(name, merged, faults[round]);
        if !ok {
          return Failed;
        }
      }
      round := round + 1;
    }
    return Conflict;
  }

  lemma CreatedServes(subjects: seq<string>)
    ensures AllServed(subjects, subjects)
  {
    forall i | 0 <= i < |subjects| ensures Served(subjects, subjects[i]) {
      SelfServed(subjects, i);
    }
  }

  // ---------------------------------------------------------------------------------------
  // Any sequence of calls

  /** Streams only appear, and subject lists only grow at the end. */
  ghost predicate Grown(before: map<string, seq<string>>, after: map<string, seq<string>>) {
    forall n :: n in before ==> n in after && before[n] <= after[n]
  }

  lemma CallGrows(before: map<string, seq<string>>, after: map<string, seq<string>>, name: string, subjects: seq<string>)
    requires Outcomes(before, after, name, subjects)
    ensures Grown(before, after)
  {
    if name in before {
      AppendMissingServes(before[name], subjects);
    }
  }

  lemma ServesStays(before: map<string, seq<string>>, after: map<string, seq<string>>, name: string, subjects: seq<string>)
    requires Grown(before, after) && Serves(before, name, subjects)
    ensures Serves(after, name, subjects)
  {
    if subjects != [] {
      forall i | 0 <= i < |subjects| ensures Served(after[name], subjects[i]) {
        ServedStays(before[name], after[name], subjects[i]);
      }
    }
  }

  datatype Call = Call(name: string, subjects: seq<string>, faults: seq<Fault>)

  /** Over any sequence of calls, whatever a successful call asked for stays served. */
  method EnsureAll(server: Server, calls: seq<Call>) returns (outcomes: seq<Outcome>)
    requires forall i :: 0 <= i < |calls| ==> |calls[i].faults| == 3
    modifies server
    ensures |outcomes| == |calls|
    ensures Grown(old(server.streams), server.streams)
    ensures forall i :: 0 <= i < |calls| && outcomes[i] == Provisioned ==>
      Serves(server.streams, calls[i].name, calls[i].subjects)
    ensures forall i :: 0 <= i < |calls| ==> outcomes[i] != Conflict
  {
    outcomes := [];
    var i := 0;
    while i < |calls|
      invariant 0 <= i <= |calls| && |outcomes| == i
      invariant Grown(old(server.streams), server.streams)
      invariant forall k :: 0 <= k < i && outcomes[k] == Provisioned ==>
        Serves(server.streams, calls[k].name, calls[k].subjects)
      invariant forall k :: 0 <= k < i ==> outcomes[k] != Conflict
    {
      ghost var before := server.streams;
      var c := calls[i];
      var o := EnsureStream(server, c.name, c.subjects, c.faults);
      CallGrows(before, server.streams, c.name, c.subjects);
      forall k | 0 <= k < i && outcomes[k] == Provisioned
        ensures Serves(server.streams, calls[k].name, calls[k].subjects)
      {
        ServesStays(before, server.streams, calls[k].name, calls[k].subjects);
      }
      outcomes := outcomes + [o];
      i := i + 1;
    }
  }
}
