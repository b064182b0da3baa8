/** `LogInterceptor`: reads the device log line by line and hands every line
    that does not come from the AWS SDK or from the shipper itself to
    `CloudWatchLogger.logMessage`. The log is a finite `LogSource`; the clock
    that `logMessage` reads is a parameter. */
module LogInterceptor {
  import opened KotlinText
  import opened LogService
  import opened CloudWatch

  /** The markers of lines that must not be shipped: those of the SDK's
      request signer, of the SDK, and of the shipper itself. */
  const Markers: seq<string> := ["AWS4Signer", "com.amazonaws", "CloudWatchLogger"]

  /** The filter of the read loop. */
  predicate Forwardable(line: string) {
    !ContainsAny(line, Markers)
  }

  /** Whether one of `markers` occurs in `line`. */
  predicate ContainsAny(line: string, markers: seq<string>) {
    markers != [] && (Contains(line, markers[0]) || ContainsAny(line, markers[1..]))
  }

  lemma {:induction false} ContainsAnyIff(line: string, markers: seq<string>)
    ensures ContainsAny(line, markers) <==> exists m :: m in markers && Contains(line, m)
    decreases |markers|
  {
    if markers != [] {
      ContainsAnyIff(line, markers[1..]);
      if exists m :: m in markers && Contains(line, m) {
        var m :| m in markers && Contains(line, m);
        if m != markers[0] {
          assert m in markers[1..];
        }
      }
    }
  }

  /** A line is forwarded exactly when no marker occurs in it at any
      position. */
  lemma ForwardableIffNoMarker(line: string)
    ensures Forwardable(line) <==> forall m, i: nat :: m in Markers ==> !OccursAt(line, m, i)
  {
    ContainsAnyIff(line, Markers);
  }

  /** A line that carries a marker anywhere, for instance the shipper's own
      log tag, is never forwarded. */
  lemma MarkedLineDropped(before: string, marker: string, after: string)
    requires marker in Markers
    ensures !Forwardable(before + marker + after)
  {
    var line := before + marker + after;
    assert line[|before|..|before| + |marker|] == marker;
    assert OccursAt(line, marker, |before|);
    ForwardableIffNoMarker(line);
  }

  /** The lines of `lines` that pass the filter, in their order. */
  function Forwarded(lines: seq<string>): (r: seq<string>)
    ensures |r| <= |lines|
    ensures forall l :: l in r <==> l in lines && Forwardable(l)
  {
    if lines == [] then []
    else
      var i := |lines| - 1;
      assert lines == lines[..i] + [lines[i]];
      Forwarded(lines[..i]) + (if Forwardable(lines[i]) then [lines[i]] else [])
  }

  /** Filtering distributes over concatenation. */
  lemma {:induction false} ForwardedAppend(xs: seq<string>, ys: seq<string>)
    ensures Forwarded(xs + ys) == Forwarded(xs) + Forwarded(ys)
    decreases |ys|
  {
    if ys != [] {
      var j := |ys| - 1;
      assert (xs + ys)[..|xs| + j] == xs + ys[..j];
      ForwardedAppend(xs, ys[..j]);
    } else {
      assert xs + ys == xs;
    }
  }

  /** Every line is forwarded as often as it occurs if it passes the filter,
      and never otherwise. */
  lemma {:induction false} ForwardedCount(lines: seq<string>, line: string)
    ensures multiset(Forwarded(lines))[line] == if Forwardable(line) then multiset(lines)[line] else 0
    decreases |lines|
  {
    if lines != [] {
      var i := |lines| - 1;
      assert lines == lines[..i] + [lines[i]];
      ForwardedCount(lines[..i], line);
    }
  }

  /** Filtering what was already filtered changes nothing. */
  lemma {:induction false} ForwardedIdempotent(lines: seq<string>)
    ensures Forwarded(Forwarded(lines)) == Forwarded(lines)
    decreases |lines|
  {
    if lines != [] {
      var i := |lines| - 1;
      var tail := if Forwardable(lines[i]) then [lines[i]] else [];
      ForwardedIdempotent(lines[..i]);
      ForwardedAppend(Forwarded(lines[..i]), tail);
      assert Forwarded(tail) == tail by {
        if tail != [] {
          assert tail[..0] == [];
        }
      }
    }
  }

  /** What was forwarded before the reader stopped is a prefix of what the
      whole log would have given. */
  lemma {:induction false} ForwardedPrefix(lines: seq<string>, i: nat)
    requires i <= |lines|
    ensures Forwarded(lines[..i]) <= Forwarded(lines)
    decreases |lines| - i
  {
    if i < |lines| {
      ForwardedStep(lines, i);
      ForwardedPrefix(lines, i + 1);
    } else {
      assert lines[..i] == lines;
    }
  }

  /** The device log as the reader sees it: its lines, and the index of the
      read that throws, if one does (`Some(0)` also stands for `logcat`
      failing to start). */
  datatype LogSource = LogSource(lines: seq<string>, errorAt: Option<nat>)

  /** `readLine()`: a line, `null` at the end of the log, or an exception. */
  datatype ReadResult = Line(text: string) | EndOfStream | ReadFailure

  /** Read number `i`. A line is returned exactly while `i` is before the
      stopping point, and it is line `i`. The last ensures is the reader
      model's definition of when a read throws: from the failing read on,
      provided that read is within the log. */
  function ReadLine(src: LogSource, i: nat): (r: ReadResult)
    ensures r.Line? <==> i < LinesRead(src)
    ensures r.Line? ==> r.text == src.lines[i]
    ensures r == ReadFailure <==> src.errorAt.Some? && src.errorAt.value <= i
                                  && src.errorAt.value <= |src.lines|
  {
    if src.errorAt.Some? && src.errorAt.value <= i && src.errorAt.value <= |src.lines| then ReadFailure
    else if i < |src.lines| then Line(src.lines[i])
    else EndOfStream
  }

  /** How many lines are read before the loop stops. */
  function LinesRead(src: LogSource): (k: nat)
    ensures k <= |src.lines|
  {
    if src.errorAt.Some? && src.errorAt.value < |src.lines| then src.errorAt.value else |src.lines|
  }

  /** How the reading coroutine ended: at the end of the log, or with an
      exception that was caught and logged. */
  datatype Termination = EndOfInput | Failed

  /** The account after `logMessage` was called, in order, for every
      forwardable line of `lines`; line `i` is handled at time `clock(i)`.
      Requests and puts are only added, groups are never created, and which
      requests fail does not change. */
  function Shipped(a: Account, n: Names, lines: seq<string>, clock: nat -> int): (r: Account)
    ensures a.calls <= r.calls && a.sent <= r.sent
    ensures r.groups == a.groups && r.failing == a.failing
    decreases |lines|
  {
    if lines == [] then a
    else
      var i := |lines| - 1;
      var before := Shipped(a, n, lines[..i], clock);
      if Forwardable(lines[i]) then LogMessageStep(before, n, lines[i], clock(i)) else before
  }

  /** The messages carried by `requests`, in order. */
  function Messages(requests: seq<PutRequest>): seq<string> {
    if requests == [] then []
    else
      var last := requests[|requests| - 1];
      Messages(requests[..|requests| - 1]) + EventMessages(last.logEvents)
  }

  function EventMessages(events: seq<InputLogEvent>): (r: seq<string>)
    ensures |r| == |events|
    ensures forall k :: 0 <= k < |r| ==> r[k] == events[k].message
  {
    if events == [] then [] else [events[0].message] + EventMessages(events[1..])
  }

  lemma MessagesAppend(requests: seq<PutRequest>, request: PutRequest)
    ensures Messages(requests + [request]) == Messages(requests) + EventMessages(request.logEvents)
  {
    assert (requests + [request])[..|requests|] == requests;
  }

  /** A put the shipper made for a line: to its own stream, with that one
      line as the only event. */
  ghost predicate ShipperRequest(request: PutRequest, n: Names) {
    request.logGroupName == n.logGroupName && request.logStreamName == n.logStreamName
    && |request.logEvents| == 1 && Forwardable(request.logEvents[0].message)
  }

  /** `xs` is `ys` with some of its elements left out and the others kept
      in their order. */
  ghost predicate Subsequence(xs: seq<string>, ys: seq<string>)
    decreases |ys|
  {
    if xs == [] then true
    else if ys == [] then false
    else (xs[|xs| - 1] == ys[|ys| - 1] && Subsequence(xs[..|xs| - 1], ys[..|ys| - 1]))
         || Subsequence(xs, ys[..|ys| - 1])
  }

  lemma SubsequenceSkip(xs: seq<string>, ys: seq<string>, y: string)
    requires Subsequence(xs, ys)
    ensures Subsequence(xs, ys + [y])
  {
    assert (ys + [y])[..|ys|] == ys;
  }

  lemma SubsequenceKeep(xs: seq<string>, ys: seq<string>, y: string)
    requires Subsequence(xs, ys)
    ensures Subsequence(xs + [y], ys + [y])
  {
    assert (xs + [y])[..|xs|] == xs;
    assert (ys + [y])[..|ys|] == ys;
  }

  /** A subsequence holds no element more often than the sequence it was
      taken from. */
  lemma {:induction false} SubsequenceMultiset(xs: seq<string>, ys: seq<string>)
    requires Subsequence(xs, ys)
    ensures multiset(xs) <= multiset(ys)
    decreases |ys|
  {
    if xs != [] {
      var j := |ys| - 1;
      assert ys == ys[..j] + [ys[j]];
      if xs[|xs| - 1] == ys[j] && Subsequence(xs[..|xs| - 1], ys[..j]) {
        SubsequenceMultiset(xs[..|xs| - 1], ys[..j]);
        assert xs == xs[..|xs| - 1] + [xs[|xs| - 1]];
      } else {
        SubsequenceMultiset(xs, ys[..j]);
      }
    }
  }

  /** Past any point of the trace, one `logMessage` adds its own line to the
      delivered messages, or nothing. */
  lemma LogMessageAddsItsLine(b: Account, n: Names, line: string, now: int, base: nat)
    requires base <= |b.sent|
    ensures var r := LogMessageStep(b, n, line, now);
            Messages(r.sent[base..]) == Messages(b.sent[base..])
            || Messages(r.sent[base..]) == Messages(b.sent[base..]) + [line]
  {
    var r := LogMessageStep(b, n, line, now);
    var request := Request(n, line, now, TokenToUse(b, n));
    LogMessageSendsAtMostOnce(b, n, line, now);
    assert EventMessages(request.logEvents) == [line];
    SuffixMessages(b.sent, r.sent, request, base);
  }

  /** The messages past `base` after a trace grew by `request`, or did not. */
  lemma SuffixMessages(before: seq<PutRequest>, after: seq<PutRequest>, request: PutRequest, base: nat)
    requires base <= |before|
    requires after == before || after == before + [request]
    ensures Messages(after[base..]) == Messages(before[base..])
            || Messages(after[base..]) == Messages(before[base..]) + EventMessages(request.logEvents)
  {
    if after != before {
      assert after[base..] == before[base..] + [request];
      MessagesAppend(before[base..], request);
    }
  }

  /** Whichever requests fail, shipping a log only adds puts to the
      shipper's own stream, each with one forwarded line; the lines they
      carry are forwarded lines in read order, none delivered more often
      than it was forwarded; groups are never created and no group loses
      its streams' entry. */
  lemma ShippedSendsOnlyForwardable(a: Account, n: Names, lines: seq<string>, clock: nat -> int)
    ensures var r := Shipped(a, n, lines, clock);
            a.sent <= r.sent && |r.sent| - |a.sent| <= |Forwarded(lines)|
            && (forall k :: |a.sent| <= k < |r.sent| ==> ShipperRequest(r.sent[k], n))
    ensures var r := Shipped(a, n, lines, clock);
            Subsequence(Messages(r.sent[|a.sent|..]), Forwarded(lines))
            && multiset(Messages(r.sent[|a.sent|..])) <= multiset(Forwarded(lines))
    ensures var r := Shipped(a, n, lines, clock);
            r.groups == a.groups && r.failing == a.failing && r.streams.Keys == a.streams.Keys
  {
    ShippedPutsToOwnStream(a, n, lines, clock);
    ShippedMessagesInOrder(a, n, lines, clock);
  }

  /** The shape of the shipper's puts: to its own stream, one marker-free
      line each, at most one per forwarded line. */
  lemma {:induction false} ShippedPutsToOwnStream(a: Account, n: Names, lines: seq<string>, clock: nat -> int)
    ensures var r := Shipped(a, n, lines, clock);
            a.sent <= r.sent && |r.sent| - |a.sent| <= |Forwarded(lines)|
            && (forall k :: |a.sent| <= k < |r.sent| ==> ShipperRequest(r.sent[k], n))
    ensures var r := Shipped(a, n, lines, clock);
            r.groups == a.groups && r.failing == a.failing && r.streams.Keys == a.streams.Keys
    decreases |lines|
  {
    if lines != [] {
      var i := |lines| - 1;
      var before := Shipped(a, n, lines[..i], clock);
      ShippedPutsToOwnStream(a, n, lines[..i], clock);
      ForwardedStep(lines, i);
      assert lines[..i + 1] == lines;
      if Forwardable(lines[i]) {
        var r := LogMessageStep(before, n, lines[i], clock(i));
        var request := Request(n, lines[i], clock(i), TokenToUse(before, n));
        LogMessageSendsAtMostOnce(before, n, lines[i], clock(i));
        assert ShipperRequest(request, n);
        assert r.sent == before.sent || r.sent == before.sent + [request];
        assert Shipped(a, n, lines, clock) == r;
        assert |Forwarded(lines)| == |Forwarded(lines[..i])| + 1;
      }
    }
  }

  /** The lines the shipper's puts carry are forwarded lines, in read order,
      and no line is delivered more often than it was forwarded. */
  lemma {:induction false} ShippedMessagesInOrder(a: Account, n: Names, lines: seq<string>, clock: nat -> int)
    ensures var r := Shipped(a, n, lines, clock);
            Subsequence(Messages(r.sent[|a.sent|..]), Forwarded(lines))
    ensures var r := Shipped(a, n, lines, clock);
            multiset(Messages(r.sent[|a.sent|..])) <= multiset(Forwarded(lines))
    decreases |lines|
  {
    if lines != [] {
      var i := |lines| - 1;
      var before := Shipped(a, n, lines[..i], clock);
      ShippedMessagesInOrder(a, n, lines[..i], clock);
      ForwardedStep(lines, i);
      assert lines[..i + 1] == lines;
      if Forwardable(lines[i]) {
        var r := LogMessageStep(before, n, lines[i], clock(i));
        assert Shipped(a, n, lines, clock) == r;
        LogMessageAddsItsLine(before, n, lines[i], clock(i), |a.sent|);
        ShippedMessagesStep(Messages(before.sent[|a.sent|..]), Messages(r.sent[|a.sent|..]), Forwarded(lines[..i]), lines[i]);
      } else {
        assert Shipped(a, n, lines, clock) == before;
        assert Forwarded(lines) == Forwarded(lines[..i]);
      }
    } else {
      assert a.sent[|a.sent|..] == [];
    }
    var r := Shipped(a, n, lines, clock);
    SubsequenceMultiset(Messages(r.sent[|a.sent|..]), Forwarded(lines));
  }

  /** The step of `ShippedSendsOnlyForwardable` for a forwarded line. */
  lemma ShippedMessagesStep(before: seq<string>, after: seq<string>, forwarded: seq<string>, line: string)
    requires Subsequence(before, forwarded)
    ensures after == before || after == before + [line] ==> Subsequence(after, forwarded + [line])
  {
    if after == before {
      SubsequenceSkip(before, forwarded, line);
    } else if after == before + [line] {
      SubsequenceKeep(before, forwarded, line);
    }
  }

  /** One more line read: `Forwarded` grows by that line alone, if it
      passes the filter. */
  lemma ForwardedStep(lines: seq<string>, i: nat)
    requires i < |lines|
    ensures Forwarded(lines[..i + 1]) == Forwarded(lines[..i]) + (if Forwardable(lines[i]) then [lines[i]] else [])
  {
    assert lines[..i + 1][..i] == lines[..i];
  }

  /** One more line read: `Shipped` grows by that line's `logMessage` alone. */
  lemma ShippedStep(a: Account, n: Names, lines: seq<string>, i: nat, clock: nat -> int)
    requires i < |lines|
    ensures Shipped(a, n, lines[..i + 1], clock)
            == if Forwardable(lines[i]) then LogMessageStep(Shipped(a, n, lines[..i], clock), n, lines[i], clock(i))
               else Shipped(a, n, lines[..i], clock)
  {
    assert lines[..i + 1][..i] == lines[..i];
  }

  /** One message on a healthy account whose group exists is delivered, and
      the account stays healthy. */
  lemma LogMessageWhenHealthy(b: Account, n: Names, line: string, now: int)
    requires b.failing == {} && !NamesBlank(n) && n.logGroupName in b.streams
    ensures var r := LogMessageStep(b, n, line, now);
            Messages(r.sent) == Messages(b.sent) + [line]
            && r.failing == {} && n.logGroupName in r.streams
  {
    LogMessageSendsAtMostOnce(b, n, line, now);
    LogMessageDelivered(b, n, line, now);
    var request := Request(n, line, now, TokenToUse(b, n));
    MessagesAppend(b.sent, request);
    assert EventMessages(request.logEvents) == [line];
  }

  /** With a healthy account whose group `logGroupName` exists and names
      that are set, every forwarded line is delivered, exactly once and in
      order, and the account stays healthy. */
  lemma {:induction false} ShippedWhenHealthy(a: Account, n: Names, lines: seq<string>, clock: nat -> int)
    requires a.failing == {} && !NamesBlank(n) && n.logGroupName in a.streams
    ensures var r := Shipped(a, n, lines, clock);
            Messages(r.sent) == Messages(a.sent) + Forwarded(lines)
            && r.failing == {} && n.logGroupName in r.streams
    decreases |lines|
  {
    if lines != [] {
      var i := |lines| - 1;
      var before := Shipped(a, n, lines[..i], clock);
      ShippedWhenHealthy(a, n, lines[..i], clock);
      ShippedStep(a, n, lines, i, clock);
      assert lines[..i + 1] == lines;
      if Forwardable(lines[i]) {
        LogMessageWhenHealthy(before, n, lines[i], clock(i));
      }
    }
  }

  /** End to end: on a healthy account, with `logGroupNameNew` equal to
      `logGroupName`, `initialize` followed by the interceptor delivers
      exactly the forwardable lines, in order. */
  lemma InitializeThenShippedDelivers(a: Account, n: Names, lines: seq<string>, clock: nat -> int)
    requires a.Valid() && a.failing == {}
    requires n.logGroupNameNew == n.logGroupName && !NamesBlank(n)
    ensures Messages(Shipped(InitializeStep(a, n), n, lines, clock).sent) == Messages(a.sent) + Forwarded(lines)
  {
    var r := InitializeStep(a, n);
    assert n.logGroupName in EnsureGroupStep(a, n).streams;
    ShippedWhenHealthy(r, n, lines, clock);
  }

  /** While the shipper's group does not exist, shipping a log delivers
      nothing, whichever requests fail. */
  lemma {:induction false} ShippedWithoutGroup(a: Account, n: Names, lines: seq<string>, clock: nat -> int)
    requires n.logGroupName !in a.streams
    ensures Shipped(a, n, lines, clock).sent == a.sent
    decreases |lines|
  {
    if lines != [] {
      var i := |lines| - 1;
      var before := Shipped(a, n, lines[..i], clock);
      ShippedWithoutGroup(a, n, lines[..i], clock);
      ShippedSendsOnlyForwardable(a, n, lines[..i], clock);
      if Forwardable(lines[i]) {
        LogMessageDelivered(before, n, lines[i], clock(i));
      }
    }
  }

  /** The quirk of `initialize` over a whole log: when `logGroupName` is
      missing and differs from `logGroupNameNew`, no line of the log is
      ever delivered. */
  lemma InitializeMissingGroupShipsNothing(a: Account, n: Names, lines: seq<string>, clock: nat -> int)
    requires a.Valid()
    requires n.logGroupName != n.logGroupNameNew && n.logGroupName !in a.groups
    ensures Shipped(InitializeStep(a, n), n, lines, clock).sent == a.sent
  {
    InitializeMissingGroupQuirk(a, n, "", 0);
    ShippedWithoutGroup(InitializeStep(a, n), n, lines, clock);
  }

  /** The body of the read loop for `line`, line `i` of `lines`: hand it to
      `logMessage` when it passes the filter. `forwarded` moves from the
      lines forwarded among the first `i` to those among the first `i + 1`,
      and with a client the account moves likewise. */
  method HandleLine(logger: CloudWatchLogger, line: string, ghost lines: seq<string>, i: nat, clock: nat -> int,
                    ghost start: Account, forwarded: seq<string>)
      returns (forwarded': seq<string>)
    requires i < |lines| && line == lines[i]
    requires forwarded == Forwarded(lines[..i])
    requires logger.logsClient != null ==>
               logger.logsClient.account == Shipped(start, logger.names, lines[..i], clock)
    modifies logger.logsClient
    ensures forwarded' == Forwarded(lines[..i + 1])
    ensures logger.logsClient != null ==>
              logger.logsClient.account == Shipped(start, logger.names, lines[..i + 1], clock)
  {
    ForwardedStep(lines, i);
    ShippedStep(start, logger.names, lines, i, clock);
    forwarded' := forwarded;
    if Forwardable(line) {
      logger.LogMessage(line, clock(i));
      forwarded' := forwarded + [line];
    }
  }

  /** `startLogging`: read until the end of the log or the first failing
      read, and call `logMessage` for every line that passes the filter.
      `forwarded` is the sequence of lines handed to `logMessage`. */
  method StartLogging(src: LogSource, logger: CloudWatchLogger, clock: nat -> int)
      returns (forwarded: seq<string>, ended: Termination)
    modifies logger.logsClient
    ensures forwarded == Forwarded(src.lines[..LinesRead(src)])
    ensures ended == Failed <==> src.errorAt.Some? && src.errorAt.value <= |src.lines|
    ensures logger.logsClient != null ==>
              logger.logsClient.account
              == Shipped(old(logger.logsClient.account), logger.names, src.lines[..LinesRead(src)], clock)
  {
    ghost var start := if logger.logsClient != null then logger.logsClient.account
                       else Account([], map[], [], [], {}, 0);
    ghost var stop := LinesRead(src);
    forwarded := [];
    var i := 0;
    var read := ReadLine(src, i);
    while read.Line?
      invariant i <= stop
      invariant read == ReadLine(src, i)
      invariant forwarded == Forwarded(src.lines[..i])
      invariant logger.logsClient != null ==>
                  logger.logsClient.account == Shipped(start, logger.names, src.lines[..i], clock)
      decreases stop - i
    {
      forwarded := HandleLine(logger, read.text, src.lines, i, clock, start, forwarded);
      i := i + 1;
      read := ReadLine(src, i);
    }
    ended := if read == ReadFailure then Failed else EndOfInput;
  }
}
