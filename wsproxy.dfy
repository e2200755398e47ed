/**
 * A model of the request routing and the per-request proxy decision of
 * wsproxy/wsproxy.go.
 *
 * The WebSocket library calls (dial, upgrade, read, write) are abstract
 * outcomes supplied as parameters; each relay direction receives the
 * sequence of results its reads and writes would return. A finite sequence
 * stands for the part of the session observed so far: when it runs out, the
 * loop has not ended yet.
 */
module WsProxy {
  import opened Options

  /** `Config`: the listen port and the raw path-to-backend table. */
  datatype Config = Config(listenPort: int, services: map<string, string>)

  // ---------------------------------------------------------------------
  // Routing
  // ---------------------------------------------------------------------

  predicate HasSuffix(s: string, suffix: string)
  {
    |suffix| <= |s| && s[|s| - |suffix|..] == suffix
  }

  /** `strings.TrimSuffix`: drop one copy of `suffix` from the end of `s`, if it is there. */
  function TrimSuffix(s: string, suffix: string): (r: string)
    ensures HasSuffix(s, suffix) ==> r + suffix == s
    ensures !HasSuffix(s, suffix) ==> r == s
  {
    if HasSuffix(s, suffix) then s[..|s| - |suffix|] else s
  }

  /** The handler's normalisation of the request path. */
  function NormalizePath(path: string): (r: string)
    ensures |path| > 0 && path[|path| - 1] == '/' ==> r + "/" == path
    ensures (|path| == 0 || path[|path| - 1] != '/') ==> r == path
  {
    TrimSuffix(path, "/")
  }

  /** Exactly one trailing slash is removed, never more. */
  lemma NormalizeExamples()
    ensures NormalizePath("/a/") == "/a"
    ensures NormalizePath("/a//") == "/a/"
    ensures NormalizePath("/") == ""
    ensures NormalizePath("/a") == "/a"
  {
    assert HasSuffix("/a/", "/");
    assert HasSuffix("/a//", "/");
    assert HasSuffix("/", "/");
    assert !HasSuffix("/a", "/") by { assert "/a"[1..] == "a"; }
  }

  /** The route lookup: the normalised path against the keys exactly as configured. */
  function Route(config: Config, path: string): (r: Option<string>)
    ensures r.Some? <==> NormalizePath(path) in config.services
    ensures r.Some? ==> r.value == config.services[NormalizePath(path)]
  {
    var key := NormalizePath(path);
    if key in config.services then Some(config.services[key]) else None
  }

  /** A trailing slash on a request path does not change its route. */
  lemma TrailingSlashSameRoute(config: Config, path: string)
    requires |path| == 0 || path[|path| - 1] != '/'
    ensures Route(config, path + "/") == Route(config, path)
  {
    var p := path + "/";
    assert p[|p| - 1] == '/';
    assert NormalizePath(p) + "/" == p;
    assert NormalizePath(p) == path by {
      assert |NormalizePath(p)| == |path|;
      forall i | 0 <= i < |path| ensures NormalizePath(p)[i] == path[i] {
        assert (NormalizePath(p) + "/")[i] == p[i];
      }
    }
  }

  /**
   * The request paths that reach a configured key: the key itself when it
   * does not end in `/`, and the key with one `/` appended. So a key written
   * with a trailing slash is reached only by a path ending in `//`.
   */
  lemma PathsReachingKey(key: string, path: string)
    ensures NormalizePath(path) == key
            <==> path == key + "/" || (path == key && (|key| == 0 || key[|key| - 1] != '/'))
  {
    if path == key + "/" {
      assert path[|path| - 1] == '/';
      assert NormalizePath(path) + "/" == key + "/";
      assert NormalizePath(path) == path[..|path| - 1];
      assert path[..|path| - 1] == key;
    }
  }

  // ---------------------------------------------------------------------
  // One relay direction
  // ---------------------------------------------------------------------

  /** A WebSocket message: its type code and its payload, both passed through untouched. */
  datatype Message = Message(messageType: int, payload: seq<bv8>)

  /** What one `ReadMessage` call gives. */
  datatype ReadOutcome = Received(msg: Message) | ReadFailed

  /** What one `WriteMessage` call gives. */
  datatype WriteOutcome = WriteOk | WriteFailed

  /** Why a relay loop returned, or that it has not returned within the trace. */
  datatype RelayEnd = StoppedOnRead | StoppedOnWrite | StillRunning

  /** The messages a relay direction delivered, in order, and how it ended. */
  datatype RelayResult = RelayResult(forwarded: seq<Message>, end: RelayEnd)

  /**
   * One relay loop, read by read: a message that was read and then written
   * is forwarded and the loop goes on; the first failed read or write ends it.
   */
  function Pump(readResults: seq<ReadOutcome>, writeResults: seq<WriteOutcome>): RelayResult
    decreases |readResults|
  {
    if readResults == [] then RelayResult([], StillRunning)
    else
      match readResults[0]
      case ReadFailed => RelayResult([], StoppedOnRead)
      case Received(m) =>
        if writeResults == [] then RelayResult([], StillRunning)
        else if writeResults[0] == WriteFailed then RelayResult([], StoppedOnWrite)
        else
          var rest := Pump(readResults[1..], writeResults[1..]);
          RelayResult([m] + rest.forwarded, rest.end)
  }

  /**
   * What a relay direction does: the k-th forwarded message is the k-th
   * read, with its type and payload, and its write succeeded; the loop ends
   * on the read right after the last forwarded message when that read
   * failed, on the write of that read's message when the write failed, and
   * is still running when the trace runs out first.
   */
  lemma {:induction false} PumpCharacterised(readResults: seq<ReadOutcome>, writeResults: seq<WriteOutcome>)
    ensures var r := Pump(readResults, writeResults);
            var n := |r.forwarded|;
            && n <= |readResults| && n <= |writeResults|
            && (forall k :: 0 <= k < n ==> readResults[k] == Received(r.forwarded[k]) && writeResults[k] == WriteOk)
            && (r.end == StoppedOnRead <==> n < |readResults| && readResults[n] == ReadFailed)
            && (r.end == StoppedOnWrite <==>
                  n < |readResults| && readResults[n].Received? && n < |writeResults| && writeResults[n] == WriteFailed)
            && (r.end == StillRunning <==>
                  n == |readResults| || (readResults[n].Received? && n == |writeResults|))
    decreases |readResults|
  {
    if readResults != [] && readResults[0].Received? && writeResults != [] && writeResults[0] == WriteOk {
      var m := readResults[0].msg;
      var rest := Pump(readResults[1..], writeResults[1..]);
      PumpCharacterised(readResults[1..], writeResults[1..]);
      ForwardedCons(readResults, writeResults, m, rest.forwarded);
      var n := |rest.forwarded| + 1;
      if n < |readResults| {
        assert readResults[n] == readResults[1..][n - 1];
      }
      if n < |writeResults| {
        assert writeResults[n] == writeResults[1..][n - 1];
      }
    }
  }

  /** A message read and written ahead of a correctly forwarded tail is a correctly forwarded sequence. */
  lemma ForwardedCons(readResults: seq<ReadOutcome>, writeResults: seq<WriteOutcome>, m: Message, tail: seq<Message>)
    requires 0 < |readResults| && 0 < |writeResults| && readResults[0] == Received(m) && writeResults[0] == WriteOk
    requires |tail| < |readResults| && |tail| < |writeResults|
    requires forall k :: 0 <= k < |tail| ==> readResults[1..][k] == Received(tail[k]) && writeResults[1..][k] == WriteOk
    ensures forall k :: 0 <= k < |[m] + tail| ==> readResults[k] == Received(([m] + tail)[k]) && writeResults[k] == WriteOk
  {
    var f := [m] + tail;
    forall k | 0 <= k < |f| ensures readResults[k] == Received(f[k]) && writeResults[k] == WriteOk {
      if k > 0 {
        assert f[k] == tail[k - 1];
        assert readResults[k] == readResults[1..][k - 1];
        assert writeResults[k] == writeResults[1..][k - 1];
      }
    }
  }

  /** The payloads of a run of successful reads. */
  function Messages(readResults: seq<ReadOutcome>): seq<Message>
    requires forall k :: 0 <= k < |readResults| ==> readResults[k].Received?
  {
    seq(|readResults|, k requires 0 <= k < |readResults| => readResults[k].msg)
  }

  /** An echo: when every read and write succeeds, every message arrives, unchanged and in order. */
  lemma {:induction false} PumpDeliversAll(readResults: seq<ReadOutcome>, writeResults: seq<WriteOutcome>)
    requires forall k :: 0 <= k < |readResults| ==> readResults[k].Received?
    requires |writeResults| >= |readResults| && forall k :: 0 <= k < |writeResults| ==> writeResults[k] == WriteOk
    ensures Pump(readResults, writeResults) == RelayResult(Messages(readResults), StillRunning)
  {
    var r := Pump(readResults, writeResults);
    PumpCharacterised(readResults, writeResults);
    assert |r.forwarded| == |readResults|;
    assert r.forwarded == Messages(readResults) by {
      forall k | 0 <= k < |readResults| ensures r.forwarded[k] == Messages(readResults)[k] {
        assert readResults[k] == Received(r.forwarded[k]);
      }
    }
  }

  /** Once a loop has stopped, nothing read or written later changes what it delivered. */
  lemma {:induction false} PumpStopsAtFirstError(readResults: seq<ReadOutcome>, writeResults: seq<WriteOutcome>,
                                                 moreReadResults: seq<ReadOutcome>, moreWriteResults: seq<WriteOutcome>)
    requires Pump(readResults, writeResults).end != StillRunning
    ensures Pump(readResults + moreReadResults, writeResults + moreWriteResults) == Pump(readResults, writeResults)
    decreases |readResults|
  {
    assert readResults != [];
    assert (readResults + moreReadResults)[0] == readResults[0];
    if readResults[0].Received? {
      assert writeResults != [];
      assert (writeResults + moreWriteResults)[0] == writeResults[0];
      if writeResults[0] == WriteOk {
        assert (readResults + moreReadResults)[1..] == readResults[1..] + moreReadResults;
        assert (writeResults + moreWriteResults)[1..] == writeResults[1..] + moreWriteResults;
        PumpStopsAtFirstError(readResults[1..], writeResults[1..], moreReadResults, moreWriteResults);
      }
    }
  }

  /** One step of a loop that read and wrote a message successfully. */
  lemma PumpStep(readResults: seq<ReadOutcome>, writeResults: seq<WriteOutcome>, i: nat, m: Message)
    requires i < |readResults| && i < |writeResults| && readResults[i] == Received(m) && writeResults[i] == WriteOk
    ensures Pump(readResults[i..], writeResults[i..])
            == RelayResult([m] + Pump(readResults[i + 1..], writeResults[i + 1..]).forwarded, Pump(readResults[i + 1..], writeResults[i + 1..]).end)
  {
    assert readResults[i..][0] == readResults[i] && readResults[i..][1..] == readResults[i + 1..];
    assert writeResults[i..][0] == writeResults[i] && writeResults[i..][1..] == writeResults[i + 1..];
  }

  /**
   * One relay `for` loop: read a message from the source, write it to the
   * destination, and return at the first failed read or write.
   */
  method RelayLoop(readResults: seq<ReadOutcome>, writeResults: seq<WriteOutcome>)
    returns (forwarded: seq<Message>, end: RelayEnd)
    ensures RelayResult(forwarded, end) == Pump(readResults, writeResults)
  {
    forwarded := [];
    var i := 0;
    while true
      invariant 0 <= i <= |readResults| && i <= |writeResults|
      invariant Pump(readResults, writeResults)
                == RelayResult(forwarded + Pump(readResults[i..], writeResults[i..]).forwarded, Pump(readResults[i..], writeResults[i..]).end)
      decreases |readResults| - i
    {
      if i == |readResults| {
        // the trace ends with the loop blocked in ReadMessage
        end := StillRunning;
        assert readResults[i..] == [];
        return;
      }
      match readResults[i]
      case ReadFailed =>
        end := StoppedOnRead;
        assert readResults[i..][0] == readResults[i];
        return;
      case Received(m) =>
        if i == |writeResults| {
          // the trace ends with the loop blocked in WriteMessage
          end := StillRunning;
          assert readResults[i..][0] == readResults[i] && writeResults[i..] == [];
          return;
        }
        if writeResults[i] == WriteFailed {
          end := StoppedOnWrite;
          assert readResults[i..][0] == readResults[i] && writeResults[i..][0] == writeResults[i];
          return;
        }
        PumpStep(readResults, writeResults, i, m);
        forwarded := forwarded + [m];
        i := i + 1;
    }
  }

  // ---------------------------------------------------------------------
  // The proxy decision
  // ---------------------------------------------------------------------

  const StatusNotFound: int := 404
  const StatusInternalServerError: int := 500

  /** What `websocket.DefaultDialer.Dial` gives. */
  datatype DialOutcome = DialOk | DialFailed

  /** What `upgrader.Upgrade` gives. */
  datatype UpgradeOutcome = UpgradeOk | UpgradeFailed

  /** The externally visible steps of one request, in the order taken. */
  datatype Action =
    | DialBackend(url: string)
    | HttpError(status: int)
    | TryUpgrade  // an upgrade attempt, whatever its outcome
    | CloseClient
    | CloseBackend

  /** What one request did: its steps and, when a session started, each direction's relay. */
  datatype Trace = Trace(actions: seq<Action>, toClient: Option<RelayResult>, toBackend: Option<RelayResult>)

  /** The scripted outcomes of the library calls of one request. */
  datatype Environment = Environment(
    dial: DialOutcome,
    upgrade: UpgradeOutcome,
    backendReads: seq<ReadOutcome>,
    clientWrites: seq<WriteOutcome>,
    clientReads: seq<ReadOutcome>,
    backendWrites: seq<WriteOutcome>)

  /**
   * The steps and relays of `proxyWebSocket` for a backend URL: a failed
   * dial answers 500; a failed upgrade closes the backend; a started session
   * relays each direction as `Pump` says and, once the client-to-backend
   * loop has returned, closes the client and then the backend.
   */
  function ProxyTrace(targetURL: string, env: Environment): Trace
  {
    match env.dial
    case DialFailed => Trace([DialBackend(targetURL), HttpError(StatusInternalServerError)], None, None)
    case DialOk =>
      match env.upgrade
      case UpgradeFailed => Trace([DialBackend(targetURL), TryUpgrade, CloseBackend], None, None)
      case UpgradeOk =>
        var toClient := Pump(env.backendReads, env.clientWrites);
        var toBackend := Pump(env.clientReads, env.backendWrites);
        var closes := if toBackend.end == StillRunning then [] else [CloseClient, CloseBackend];
        Trace([DialBackend(targetURL), TryUpgrade] + closes, Some(toClient), Some(toBackend))
  }

  /** `a` occurs at most once in `actions`. */
  predicate AtMostOnce(actions: seq<Action>, a: Action)
  {
    forall i, j :: 0 <= i < j < |actions| && actions[i] == a ==> actions[j] != a
  }

  /**
   * `proxyWebSocket`: dial the backend first, upgrade the client only once
   * that succeeded, then relay both ways. Returning from the
   * client-to-backend loop runs the deferred closes, the client's first.
   */
  method ProxyWebSocket(targetURL: string, env: Environment) returns (t: Trace)
    ensures t == ProxyTrace(targetURL, env)
    ensures |t.actions| > 0 && t.actions[0] == DialBackend(targetURL)
    ensures env.dial == DialFailed ==>
              t == Trace([DialBackend(targetURL), HttpError(StatusInternalServerError)], None, None)
    ensures env.dial == DialOk && env.upgrade == UpgradeFailed ==>
              t == Trace([DialBackend(targetURL), TryUpgrade, CloseBackend], None, None)
    ensures env.dial == DialOk && env.upgrade == UpgradeOk ==>
              && t.toClient == Some(Pump(env.backendReads, env.clientWrites))
              && t.toBackend == Some(Pump(env.clientReads, env.backendWrites))
              && t.actions == [DialBackend(targetURL), TryUpgrade]
                              + (if t.toBackend.value.end == StillRunning then [] else [CloseClient, CloseBackend])
    ensures TryUpgrade in t.actions <==> env.dial == DialOk
    ensures forall k :: 0 <= k < |t.actions| && t.actions[k] == TryUpgrade ==> k == 1
    ensures t.toClient.Some? <==> env.dial == DialOk && env.upgrade == UpgradeOk
    ensures t.toBackend.Some? <==> t.toClient.Some?
    ensures HttpError(StatusInternalServerError) in t.actions ==> TryUpgrade !in t.actions
    ensures CloseClient in t.actions ==> t.toBackend.Some? && t.toBackend.value.end != StillRunning
    ensures CloseClient in t.actions ==> CloseBackend in t.actions
    ensures AtMostOnce(t.actions, CloseClient) && AtMostOnce(t.actions, CloseBackend)
  {
    var actions := [DialBackend(targetURL)];
    if env.dial == DialFailed {
      actions := actions + [HttpError(StatusInternalServerError)];
      return Trace(actions, None, None);
    }
    // from here the backend connection is open and closed on every return
    actions := actions + [TryUpgrade];
    if env.upgrade == UpgradeFailed {
      actions := actions + [CloseBackend];
      return Trace(actions, None, None);
    }
    // backend to client, in its own goroutine
    var toClient, toClientEnd := RelayLoop(env.backendReads, env.clientWrites);
    // client to backend, in the handler's own goroutine
    var toBackend, toBackendEnd := RelayLoop(env.clientReads, env.backendWrites);
    if toBackendEnd != StillRunning {
      actions := actions + [CloseClient, CloseBackend];
    }
    t := Trace(actions, Some(RelayResult(toClient, toClientEnd)), Some(RelayResult(toBackend, toBackendEnd)));
  }

  /**
   * The `/` handler: normalise the path, look it up, answer 404 on a miss,
   * and otherwise proxy to the configured backend.
   */
  method HandleRequest(config: Config, path: string, env: Environment) returns (t: Trace)
    ensures Route(config, path).None? ==> t == Trace([HttpError(StatusNotFound)], None, None)
    ensures Route(config, path).None? ==> forall k :: 0 <= k < |t.actions| ==> !t.actions[k].DialBackend?
    ensures Route(config, path).Some? ==> t == ProxyTrace(config.services[NormalizePath(path)], env)
    ensures Route(config, path).Some? ==>
              |t.actions| > 0 && t.actions[0] == DialBackend(config.services[NormalizePath(path)])
    ensures Route(config, path).Some? && env.dial == DialFailed ==>
              t.actions == [DialBackend(config.services[NormalizePath(path)]), HttpError(StatusInternalServerError)]
    ensures Route(config, path).Some? && env.dial == DialOk && env.upgrade == UpgradeFailed ==>
              t.actions == [DialBackend(config.services[NormalizePath(path)]), TryUpgrade, CloseBackend]
    ensures Route(config, path).Some? && env.dial == DialOk && env.upgrade == UpgradeOk ==>
              && t.toClient == Some(Pump(env.backendReads, env.clientWrites))
              && t.toBackend == Some(Pump(env.clientReads, env.backendWrites))
    ensures TryUpgrade in t.actions ==> Route(config, path).Some? && env.dial == DialOk
  {
    var key := NormalizePath(path);
    if key !in config.services {
      return Trace([HttpError(StatusNotFound)], None, None);
    }
    t := ProxyWebSocket(config.services[key], env);
  }
}
