/** Evaluating one script through the node's script cache instead of sending its text every time. */
module EvalAsync {
  import opened Commands
  import opened Options
  import opened Redis
  import opened Sequences

  const UNKNOWN := "ERR unknown command"
  const MISSING := "NOSCRIPT"

  predicate At(msg: string, i: nat, marker: string) {
    i + |marker| <= |msg| && msg[i..i + |marker|] == marker
  }

  predicate Mentions(msg: string, marker: string) {
    exists i | 0 <= i <= |msg| :: At(msg, i, marker)
  }

  predicate SaysUnknown(r: Reply) {
    r.Err? && Mentions(r.msg, UNKNOWN)
  }

  predicate SaysMissing(r: Reply) {
    r.Err? && Mentions(r.msg, MISSING)
  }

  lemma MentionKeepsChars(msg: string, marker: string, c: char)
    requires Mentions(msg, marker) && c in marker
    ensures c in msg
  {
    var i :| 0 <= i <= |msg| && At(msg, i, marker);
    var k :| 0 <= k < |marker| && marker[k] == c;
    assert msg[i..i + |marker|][k] == msg[i + k];
  }

  lemma MissingFirst(rest: string)
    ensures Mentions(MISSING + rest, MISSING)
  {
    assert At(MISSING + rest, 0, MISSING);
  }

  lemma NoKInMissing()
    ensures 'k' !in NOSCRIPT && 'k' in UNKNOWN
  {
    assert UNKNOWN[6] == 'k';
  }

  /** A missing script and an unknown command are never confused by the node's own messages. */
  lemma MissingIsRecognised()
    ensures SaysMissing(Err(NOSCRIPT)) && !SaysUnknown(Err(NOSCRIPT))
  {
    hide Mentions;
    MissingFirst(" No matching script.");
    NoKInMissing();
    if Mentions(NOSCRIPT, UNKNOWN) {
      MentionKeepsChars(NOSCRIPT, UNKNOWN, 'k');
    }
  }

  /** Loading a script a node holds changes nothing. */
  lemma LoadedAlready(sem: Semantics, n: Node, script: string)
    requires CollisionFree(sem) && n.WellFormed(sem) && sem.sha1(script) in n.scripts
    ensures n.scripts[sem.sha1(script)] == script && LoadScript(sem, n, script) == n
  {
    var h := sem.sha1(script);
    assert sem.sha1(n.scripts[h]) == sem.sha1(script);
    assert n.scripts[h := script] == n.scripts;
  }

  datatype Wire = EVAL | EVALSHA | EVALSHA_RO | SCRIPT_LOAD

  /**
    The node the call is pinned to: whether it knows EVALSHA_RO and how it refuses commands it does not know, what a
    script does when run read-only, and how it refuses SCRIPT LOAD, if it does.
  */
  datatype Remote = Remote(
    sem: Semantics, knowsRo: bool, unknown: string, refusal: Option<string>,
    roBody: (string, seq<Key>, seq<Value>, Data) -> (Reply, Data))

  /** One script run: its reply and the node after it, which then holds the script. */
  function RunBody(remote: Remote, ro: bool, script: string, keys: seq<Key>, args: seq<Value>, n: Node): (Reply, Node) {
    var (r, d) := if ro then remote.roBody(script, keys, args, n.data) else remote.sem.body(script, keys, args, n.data);
    (r, LoadScript(remote.sem, n, script).(data := d))
  }

  /**
    Whether the first run of the script is taken for what it is. It is not if its own error text carries a marker that
    the fallbacks look for: then the script runs again.
  */
  predicate TakenAtItsWord(remote: Remote, ro: bool, loaded: bool, first: Reply) {
    if loaded then !SaysUnknown(first) && !SaysMissing(first)
    else remote.refusal.None? && !(ro && SaysUnknown(first))
  }

  /** One run of the script over the data alone, read-only or not. */
  function RunOnce(remote: Remote, ro: bool, script: string, keys: seq<Key>, args: seq<Value>, d: Data): (Reply, Data) {
    if ro then remote.roBody(script, keys, args, d) else remote.sem.body(script, keys, args, d)
  }

  /** Runs one after the other, in the given modes: the reply of the last and the data after all of them. */
  function RunMany(remote: Remote, modes: seq<bool>, script: string, keys: seq<Key>, args: seq<Value>, d: Data)
    : (Reply, Data)
    requires modes != []
  {
    var (r, d') := RunOnce(remote, modes[0], script, keys, args, d);
    if |modes| == 1 then (r, d') else RunMany(remote, modes[1..], script, keys, args, d')
  }

  /** The reply `r` and the data `d'` are those of the runs `modes` over `d`; without a run the data is untouched. */
  predicate Ran(
    remote: Remote, modes: seq<bool>, script: string, keys: seq<Key>, args: seq<Value>, d: Data, r: Reply, d': Data)
  {
    if modes == [] then d' == d else (r, d') == RunMany(remote, modes, script, keys, args, d)
  }

  lemma {:induction false} RanThenRan(
    remote: Remote, m1: seq<bool>, m2: seq<bool>, script: string, keys: seq<Key>, args: seq<Value>,
    d: Data, r1: Reply, d1: Data, r2: Reply, d2: Data)
    requires Ran(remote, m1, script, keys, args, d, r1, d1) && Ran(remote, m2, script, keys, args, d1, r2, d2)
    ensures Ran(remote, m1 + m2, script, keys, args, d, if m2 == [] then r1 else r2, d2)
    decreases |m1|
  {
    if m1 == [] {
      assert m1 + m2 == m2;
    } else if m2 == [] {
      assert m1 + m2 == m1;
    } else {
      var (r, next) := RunOnce(remote, m1[0], script, keys, args, d);
      assert (m1 + m2)[1..] == m1[1..] + m2;
      if |m1| == 1 {
        assert m1[1..] + m2 == m2;
      } else {
        RanThenRan(remote, m1[1..], m2, script, keys, args, next, r1, d1, r2, d2);
      }
    }
  }

  /** For a script that does the same read-only, one run through the cache is one EVAL. */
  lemma OneRunIsEval(remote: Remote, ro: bool, script: string, keys: seq<Key>, args: seq<Value>, n: Node)
    ensures (ro ==> remote.roBody(script, keys, args, n.data) == remote.sem.body(script, keys, args, n.data)) ==>
              RunBody(remote, ro, script, keys, args, n) == RunOne(remote.sem, Eval(script, keys, args), n)
  {}

  class Client {
    const remote: Remote
    var node: Node
    var evalShaRoSupported: bool
    var sent: seq<Wire>
    /** The runs of a script body on the node, each read-only or not. */
    ghost var runs: seq<bool>

    constructor (remote: Remote, node: Node, supported: bool)
      ensures this.remote == remote && this.node == node && evalShaRoSupported == supported
      ensures sent == [] && runs == []
    {
      this.remote, this.node, evalShaRoSupported, sent, runs := remote, node, supported, [], [];
    }

    method Eval(script: string, keys: seq<Key>, args: seq<Value>) returns (r: Reply)
      modifies this
      ensures (r, node) == RunOne(remote.sem, Commands.Eval(script, keys, args), old(node))
      ensures sent == old(sent) + [EVAL] && runs == old(runs) + [false] && evalShaRoSupported == old(evalShaRoSupported)
    {
      var result := RunOne(remote.sem, Commands.Eval(script, keys, args), node);
      r, node, sent, runs := result.0, result.1, sent + [EVAL], runs + [false];
    }

    method EvalSha(sha: string, keys: seq<Key>, args: seq<Value>) returns (r: Reply)
      modifies this
      ensures (r, node) == RunOne(remote.sem, Commands.EvalSha(sha, keys, args), old(node))
      ensures sent == old(sent) + [EVALSHA] && evalShaRoSupported == old(evalShaRoSupported)
      ensures runs == old(runs) + if sha in old(node).scripts then [false] else []
    {
      runs := runs + if sha in node.scripts then [false] else [];
      var result := RunOne(remote.sem, Commands.EvalSha(sha, keys, args), node);
      r, node, sent := result.0, result.1, sent + [EVALSHA];
    }

    method SendEvalShaRo(sha: string, keys: seq<Key>, args: seq<Value>) returns (r: Reply)
      modifies this
      ensures sent == old(sent) + [EVALSHA_RO] && evalShaRoSupported == old(evalShaRoSupported)
      ensures !remote.knowsRo ==> r == Err(remote.unknown) && node == old(node) && runs == old(runs)
      ensures remote.knowsRo && sha !in old(node).scripts ==>
                r == Err(NOSCRIPT) && node == old(node) && runs == old(runs)
      ensures remote.knowsRo && sha in old(node).scripts ==>
                && runs == old(runs) + [true] && node.scripts == old(node).scripts
                && (r, node.data) == remote.roBody(old(node).scripts[sha], keys, args, old(node).data)
    {
      sent := sent + [EVALSHA_RO];
      if !remote.knowsRo {
        return Err(remote.unknown);
      }
      if sha !in node.scripts {
        return Err(NOSCRIPT);
      }
      var result := remote.roBody(node.scripts[sha], keys, args, node.data);
      r, node, runs := result.0, node.(data := result.1), runs + [true];
    }

    method ScriptLoad(script: string) returns (error: Option<string>)
      modifies this
      ensures error == remote.refusal
      ensures node == if error.None? then LoadScript(remote.sem, old(node), script) else old(node)
      ensures sent == old(sent) + [SCRIPT_LOAD] && runs == old(runs) && evalShaRoSupported == old(evalShaRoSupported)
    {
      sent := sent + [SCRIPT_LOAD];
      error := remote.refusal;
      if error.None? {
        node := LoadScript(remote.sem, node, script);
      }
    }

    /**
      Evaluating by hash: a missing script is reported and nothing runs; a loaded one runs once, unless it ran
      read-only and its own reply reads like an unknown command, in which case it runs again, with writes allowed.
    */
    twostate predicate Evaluated(readOnly: bool, sha: string, keys: seq<Key>, args: seq<Value>, r: Reply)
      reads this
    {
      var n := old(node);
      var ro := readOnly && old(evalShaRoSupported) && remote.knowsRo;
      && (evalShaRoSupported ==> old(evalShaRoSupported))
      && ((readOnly && old(evalShaRoSupported)) || evalShaRoSupported == old(evalShaRoSupported))
      && old(sent) < sent && |sent| <= |old(sent)| + (if evalShaRoSupported == old(evalShaRoSupported) then 1 else 2)
      && SCRIPT_LOAD !in sent[|old(sent)|..]
      && if sha !in n.scripts then
           && r == Err(NOSCRIPT) && node == n && runs == old(runs)
           && (readOnly ==> (evalShaRoSupported <==> ro))
           && (!readOnly ==> evalShaRoSupported == old(evalShaRoSupported))
         else
           var script := n.scripts[sha];
           var first := RunOnce(remote, ro, script, keys, args, n.data);
           && node.scripts == n.scripts
           && if ro && SaysUnknown(first.0) then
                && runs == old(runs) + [true, false] && !evalShaRoSupported
                && (r, node.data) == RunOnce(remote, false, script, keys, args, first.1)
              else
                && runs == old(runs) + [ro] && (r, node.data) == first
                && (evalShaRoSupported <==> old(evalShaRoSupported) && (readOnly ==> remote.knowsRo))
    }

    /** Executing an EVALSHA_RO: on a node without the command, now and from then on, EVALSHA takes its place. */
    method EvalShaRo(sha: string, keys: seq<Key>, args: seq<Value>) returns (r: Reply)
      requires Mentions(remote.unknown, UNKNOWN)
      modifies this
      ensures Evaluated(true, sha, keys, args, r)
    {
      if evalShaRoSupported {
        MissingIsRecognised();
        r := SendEvalShaRo(sha, keys, args);
        if SaysUnknown(r) {
          evalShaRoSupported := false;
          r := EvalSha(sha, keys, args);
        }
      } else {
        r := EvalSha(sha, keys, args);
      }
    }

    method Evaluate(readOnly: bool, sha: string, keys: seq<Key>, args: seq<Value>) returns (r: Reply)
      requires Mentions(remote.unknown, UNKNOWN)
      modifies this
      ensures Evaluated(readOnly, sha, keys, args, r) && old(runs) <= runs && |runs| <= |old(runs)| + 2
      ensures sha in old(node).scripts ==>
                Ran(remote, runs[|old(runs)|..], old(node).scripts[sha], keys, args, old(node).data, r, node.data)
    {
      if readOnly && evalShaRoSupported {
        r := EvalShaRo(sha, keys, args);
      } else {
        r := EvalSha(sha, keys, args);
      }
    }

    /**
      What follows an error reply: an unknown command is sent as EVALSHA, a missing script is loaded and evaluated, and
      any other error is the result.
    */
    method Recover(msg: string, readOnly: bool, sha: string, script: string, keys: seq<Key>, args: seq<Value>)
      returns (r: Reply)
      requires Mentions(remote.unknown, UNKNOWN) && sha == remote.sem.sha1(script)
      requires if sha in node.scripts then node.scripts[sha] == script else msg == NOSCRIPT
      modifies this
      ensures old(runs) <= runs && |runs| <= |old(runs)| + 2 && old(sent) <= sent
      ensures evalShaRoSupported ==> old(evalShaRoSupported)
      ensures |sent| <= |old(sent)| + (if readOnly && old(evalShaRoSupported) then 3 else 2)
      ensures Mentions(msg, UNKNOWN) ==> |sent| == |old(sent)| + 1
      ensures sha in node.scripts ==>
                && Ran(remote, runs[|old(runs)|..], script, keys, args, old(node).data, r, node.data)
                && node.scripts[sha] == script
      ensures node.scripts == old(node).scripts
              || node.scripts == LoadScript(remote.sem, old(node), script).scripts
      ensures remote.refusal.Some? && SCRIPT_LOAD in sent[|old(sent)|..] ==>
                r == Err(remote.refusal.value) && node == old(node) && runs == old(runs)
      ensures !Mentions(msg, UNKNOWN) && !Mentions(msg, MISSING) ==>
                r == Err(msg) && node == old(node) && runs == old(runs) && sent == old(sent)
      ensures Mentions(msg, UNKNOWN) && sha in old(node).scripts ==>
                runs == old(runs) + [false] && SCRIPT_LOAD !in sent[|old(sent)|..]
      ensures !Mentions(msg, UNKNOWN) && Mentions(msg, MISSING) ==>
                if remote.refusal.Some? then SCRIPT_LOAD in sent[|old(sent)|..]
                else
                  var ro := readOnly && old(evalShaRoSupported) && remote.knowsRo;
                  var first := RunOnce(remote, ro, script, keys, args, old(node).data);
                  && node.scripts == LoadScript(remote.sem, old(node), script).scripts
                  && if ro && SaysUnknown(first.0) then runs == old(runs) + [true, false]
                     else
                       && runs == old(runs) + [ro] && (r, node.data) == first
                       && (evalShaRoSupported <==> old(evalShaRoSupported) && (readOnly ==> remote.knowsRo))
      ensures Mentions(msg, UNKNOWN) ==> !evalShaRoSupported
      ensures !Mentions(msg, UNKNOWN) && (!Mentions(msg, MISSING) || remote.refusal.Some?) ==>
                evalShaRoSupported == old(evalShaRoSupported)
    {
      r := Err(msg);
      if Mentions(msg, UNKNOWN) {
        evalShaRoSupported := false;
        r := EvalSha(sha, keys, args);
      } else if Mentions(msg, MISSING) {
        var error := ScriptLoad(script);
        if error.Some? {
          r := Err(error.value);
        } else {
          r := Evaluate(readOnly, sha, keys, args);
        }
      }
    }

    /**
      `eval_async` with the script cache on. Whatever the node holds, supports and answers: at most four commands are
      sent, the script runs at most three times, the data is that after the runs, and the reply that of the last of
      them, or of a refused SCRIPT LOAD.
    */
    method EvalCached(readOnly: bool, script: string, keys: seq<Key>, args: seq<Value>) returns (r: Reply)
      requires CollisionFree(remote.sem) && node.WellFormed(remote.sem) && Mentions(remote.unknown, UNKNOWN)
      modifies this
      ensures old(sent) < sent && |sent| <= |old(sent)| + 4
      ensures evalShaRoSupported ==> old(evalShaRoSupported)
      ensures old(runs) <= runs && |runs| <= |old(runs)| + 3
      ensures node.scripts == old(node).scripts || node.scripts == LoadScript(remote.sem, old(node), script).scripts
      ensures remote.refusal.Some? && SCRIPT_LOAD in sent[|old(sent)|..] ==> r == Err(remote.refusal.value)
      ensures var modes := runs[|old(runs)|..];
              if remote.refusal.Some? && SCRIPT_LOAD in sent[|old(sent)|..]
              then exists last: Reply :: Ran(remote, modes, script, keys, args, old(node).data, last, node.data)
              else modes != [] && Ran(remote, modes, script, keys, args, old(node).data, r, node.data)
      ensures var ro := readOnly && old(evalShaRoSupported) && remote.knowsRo;
              var loaded := remote.sem.sha1(script) in old(node).scripts;
              var first := RunOnce(remote, ro, script, keys, args, old(node).data);
              if TakenAtItsWord(remote, ro, loaded, first.0) then
                && (r, node.data) == first && runs == old(runs) + [ro]
                && node.scripts == LoadScript(remote.sem, old(node), script).scripts
                && (evalShaRoSupported <==> old(evalShaRoSupported) && (readOnly ==> remote.knowsRo))
              else if remote.refusal.None? || (loaded && SaysUnknown(first.0)) then |runs| > |old(runs)| + 1
              else r == Err(remote.refusal.value) && runs == old(runs) + if loaded then [ro] else []
    {
      MissingIsRecognised();
      hide RunOne, RunMany, At;
      var sha := remote.sem.sha1(script);
      if sha in node.scripts {
        LoadedAlready(remote.sem, node, script);
      }
      ghost var d0, runs0, sent0 := node.data, runs, sent;
      r := Evaluate(readOnly, sha, keys, args);
      ghost var r1, d1, m1, runs1, sent1 := r, node.data, runs[|runs0|..], runs, sent;
      if r.Ok? {
        return;
      }
      r := Recover(r.msg, readOnly, sha, script, keys, args);
      ghost var m2 := runs[|runs1|..];
      Suffixes(runs0, runs1, runs);
      Suffixes(sent0, sent1, sent);
      hide Ran;
      RanThenRan(remote, m1, m2, script, keys, args, d0, r1, d1, r, node.data);
    }

    /**
      `eval_async`. The script runs once, with the reply and the effect of that run, exactly when its reply is taken at
      its word; for a script that does the same read-only that is one plain EVAL. Otherwise it runs again, or a refused
      SCRIPT LOAD is the reply. With the script cache off it is one plain EVAL.
    */
    method EvalAsync(active: bool, readOnly: bool, script: string, keys: seq<Key>, args: seq<Value>) returns (r: Reply)
      requires CollisionFree(remote.sem) && node.WellFormed(remote.sem) && Mentions(remote.unknown, UNKNOWN)
      modifies this
      ensures old(sent) < sent && |sent| <= |old(sent)| + 4
      ensures evalShaRoSupported ==> old(evalShaRoSupported)
      ensures node.WellFormed(remote.sem)
      ensures old(runs) <= runs && |runs| <= |old(runs)| + 3
      ensures !active ==>
                && (r, node) == RunOne(remote.sem, Commands.Eval(script, keys, args), old(node))
                && sent == old(sent) + [EVAL] && runs == old(runs) + [false]
      ensures active ==>
                var ro := readOnly && old(evalShaRoSupported) && remote.knowsRo;
                var loaded := remote.sem.sha1(script) in old(node).scripts;
                var first := RunBody(remote, ro, script, keys, args, old(node));
                if TakenAtItsWord(remote, ro, loaded, first.0) then
                  && (r, node) == first && runs == old(runs) + [ro]
                  && (evalShaRoSupported <==> old(evalShaRoSupported) && (readOnly ==> remote.knowsRo))
                  && ((ro ==> remote.roBody(script, keys, args, old(node).data)
                              == remote.sem.body(script, keys, args, old(node).data)) ==>
                        (r, node) == RunOne(remote.sem, Commands.Eval(script, keys, args), old(node)))
                else if remote.refusal.None? || (loaded && SaysUnknown(first.0)) then |runs| > |old(runs)| + 1
                else r == Err(remote.refusal.value) && runs == old(runs) + if loaded then [ro] else []
      ensures active ==>
                var modes := runs[|old(runs)|..];
                if remote.refusal.Some? && SCRIPT_LOAD in sent[|old(sent)|..]
                then
                  && r == Err(remote.refusal.value)
                  && exists last: Reply :: Ran(remote, modes, script, keys, args, old(node).data, last, node.data)
                else modes != [] && Ran(remote, modes, script, keys, args, old(node).data, r, node.data)
      ensures !active ==> evalShaRoSupported == old(evalShaRoSupported)
    {
      OneRunIsEval(remote, readOnly && evalShaRoSupported && remote.knowsRo, script, keys, args, node);
      if active {
        r := EvalCached(readOnly, script, keys, args);
      } else {
        r := Eval(script, keys, args);
      }
    }
  }
}
