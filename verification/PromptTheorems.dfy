/** Which text reaches the adapter, and which types of personal data a run reports. */
module PromptTheorems {
  import opened Prelude
  import opened OrchestratorPipeline
  import PT = PipelineTheorems

  // ----- merging types -----

  /** `kept` lists, in order, the positions of `b` that bring a type seen neither in `a` nor before. */
  ghost predicate FirstSeen(a: seq<string>, b: seq<string>, kept: seq<nat>) {
    && (forall i, j :: 0 <= i < j < |kept| ==> kept[i] < kept[j])
    && (forall i :: 0 <= i < |kept| ==> kept[i] < |b|)
    && (forall j: nat :: j < |b| ==> (j in kept <==> b[j] !in a && b[j] !in b[..j]))
  }

  function Select(b: seq<string>, kept: seq<nat>): seq<string>
    requires forall i :: 0 <= i < |kept| ==> kept[i] < |b|
  {
    seq(|kept|, i requires 0 <= i < |kept| => b[kept[i]])
  }

  /** One more type at the end of `b`. */
  lemma {:induction false} FirstSeenGrows(a: seq<string>, b: seq<string>, x: string, kept: seq<nat>)
    requires FirstSeen(a, b, kept)
    ensures var longer := if x in a || x in b then kept else kept + [|b|];
            && FirstSeen(a, b + [x], longer)
            && Select(b + [x], longer) == Select(b, kept) + if x in a || x in b then [] else [x]
  {
    var c, longer := b + [x], if x in a || x in b then kept else kept + [|b|];
    assert c[..|b|] == b && c[|b|] == x;
    forall j: nat | j < |c| ensures j in longer <==> c[j] !in a && c[j] !in c[..j] {
      if j < |b| { assert c[j] == b[j] && c[..j] == b[..j]; }
    }
  }

  /** The merged types are those of `a` and then each new one where it is first seen. */
  lemma {:induction false} MergeKeepsFirstSeen(a: seq<string>, b: seq<string>) returns (kept: seq<nat>)
    ensures FirstSeen(a, b, kept) && Merge(a, b) == a + Select(b, kept)
    ensures forall x :: x in Merge(a, b) <==> x in a || x in b
  {
    kept := [];
    if b != [] {
      var before, x := b[..|b| - 1], b[|b| - 1];
      kept := MergeKeepsFirstSeen(a, before);
      assert b == before + [x];
      FirstSeenGrows(a, before, x, kept);
      hide FirstSeen, Select;
      kept := if x in a || x in before then kept else kept + [|before|];
    }
  }

  lemma {:induction false} MergeConcat(a: seq<string>, b: seq<string>, c: seq<string>)
    ensures Merge(Merge(a, b), c) == Merge(a, b + c)
  {
    if c == [] {
      assert b + c == b;
    } else {
      assert (b + c)[..|b + c| - 1] == b + c[..|c| - 1];
      MergeConcat(a, b, c[..|c| - 1]);
    }
  }

  // ----- the chain of scrubs -----

  function PromptFields(fields: seq<string>): nat {
    if fields == [] then 0
    else PromptFields(fields[..|fields| - 1]) + if fields[|fields| - 1] == "prompt" then 1 else 0
  }

  /** How often the policy has the prompt scrubbed again. */
  function Scrubs(env: Env): nat {
    if env.policy.Ok? && env.policy.value.action == "mask" then PromptFields(env.policy.value.fields) else 0
  }

  /** Each text is the scrubbed form of the one before. */
  ghost predicate Chained(env: Env, chain: seq<Mask>) {
    forall k :: 0 <= k < |chain| - 1 ==> env.scrub(chain[k].text) == Ok(chain[k + 1])
  }

  /** The types found after the first mask, in order. */
  function LaterTypes(chain: seq<Mask>): seq<string> {
    if |chain| <= 1 then [] else LaterTypes(chain[..|chain| - 1]) + chain[|chain| - 1].found
  }

  function EndOf(chain: seq<Mask>): Mask
    requires chain != []
  {
    Mask(chain[|chain| - 1].text, Merge(chain[0].found, LaterTypes(chain)))
  }

  lemma {:induction false} RescrubIsChain(env: Env, fields: seq<string>, m: Mask) returns (chain: seq<Mask>)
    requires Rescrub(env, fields, m).Ok?
    ensures |chain| == PromptFields(fields) + 1 && chain[0] == m && Chained(env, chain)
    ensures Rescrub(env, fields, m) == Ok(EndOf(chain))
  {
    chain := [m];
    if fields != [] {
      var n := |fields| - 1;
      chain := RescrubIsChain(env, fields[..n], m);
      if fields[n] == "prompt" {
        var shorter, again := chain, env.scrub(chain[|chain| - 1].text).value;
        chain := shorter + [again];
        assert chain[..|chain| - 1] == shorter;
        MergeConcat(m.found, LaterTypes(shorter), again.found);
        ChainGrows(env, shorter, again);
      }
    }
  }

  lemma {:induction false} ChainGrows(env: Env, chain: seq<Mask>, m: Mask)
    requires chain != [] && Chained(env, chain) && env.scrub(chain[|chain| - 1].text) == Ok(m)
    ensures Chained(env, chain + [m])
  {
    var longer := chain + [m];
    forall k | 0 <= k < |longer| - 1 ensures env.scrub(longer[k].text) == Ok(longer[k + 1]) {
      if k + 1 < |chain| { assert env.scrub(chain[k].text) == Ok(chain[k + 1]); }
    }
  }

  lemma {:induction false} SanitizedIsChain(req: Request, env: Env) returns (chain: seq<Mask>)
    requires Sanitized(req, env).Ok?
    ensures |chain| == Scrubs(env) + 1 && env.mask(req.prompt) == Ok(chain[0]) && Chained(env, chain)
    ensures Sanitized(req, env) == Ok(EndOf(chain))
  {
    var m := env.mask(req.prompt).value;
    if Masks(env) {
      chain := RescrubIsChain(env, env.policy.value.fields, m);
    } else {
      chain := [m];
    }
  }

  /** A scrub that raises ends the chain, with the exception it raised. */
  lemma {:induction false} RescrubFailsInChain(env: Env, fields: seq<string>, m: Mask) returns (chain: seq<Mask>)
    requires Rescrub(env, fields, m).Err?
    ensures 1 <= |chain| <= PromptFields(fields) && chain[0] == m && Chained(env, chain)
    ensures env.scrub(chain[|chain| - 1].text) == Err(Rescrub(env, fields, m).error)
  {
    var n := |fields| - 1;
    if Rescrub(env, fields[..n], m).Err? {
      chain := RescrubFailsInChain(env, fields[..n], m);
    } else {
      chain := RescrubIsChain(env, fields[..n], m);
    }
  }

  // ----- main results -----

  /** What reaches the adapter is the end of the chain that starts with the masked prompt and is
      scrubbed once more for each prompt field of a mask instruction.  The types a run reports for the
      prompt are those of the first mask and then each new one where the chain first shows it. */
  lemma {:induction false} AdapterSeesTheScrubbedPrompt(req: Request, env: Env)
    returns (chain: seq<Mask>, kept: seq<nat>)
    requires Pipeline(req, env).calls != []
    ensures |chain| == Scrubs(env) + 1 && env.mask(req.prompt) == Ok(chain[0]) && Chained(env, chain)
    ensures Pipeline(req, env).calls == [chain[|chain| - 1].text]
    ensures FirstSeen(chain[0].found, LaterTypes(chain), kept)
    ensures Sanitized(req, env) ==
            Ok(Mask(chain[|chain| - 1].text, chain[0].found + Select(LaterTypes(chain), kept)))
  {
    PT.AdapterIsGoverned(req, env);
    PT.CallsAreFew(req, env);
    hide RunStages, Stages;
    chain := SanitizedIsChain(req, env);
    kept := MergeKeepsFirstSeen(chain[0].found, LaterTypes(chain));
  }

  /** The trail's last event speaks of the answer to that very prompt. */
  lemma {:induction false} ContentIsTheAnswer(req: Request, env: Env)
    requires Pipeline(req, env).calls != []
    ensures var reply := env.complete(Pipeline(req, env).calls[0]);
            ContentOf(req, env) == if reply.Ok? then reply.value.content else ""
  {
    PT.AdapterIsGoverned(req, env);
    PT.CallsAreFew(req, env);
    hide RunStages, Stages;
  }

  /** Sanitizing fails only with the exception of the first mask, or of a scrub of the chain. */
  lemma {:induction false} SanitizingFailsInChain(req: Request, env: Env) returns (chain: seq<Mask>)
    requires Sanitized(req, env).Err?
    ensures if env.mask(req.prompt).Err? then Sanitized(req, env) == env.mask(req.prompt)
            else
              && 1 <= |chain| <= Scrubs(env) && env.mask(req.prompt) == Ok(chain[0]) && Chained(env, chain)
              && env.scrub(chain[|chain| - 1].text) == Err(Sanitized(req, env).error)
  {
    chain := [];
    if env.mask(req.prompt).Ok? {
      chain := RescrubFailsInChain(env, env.policy.value.fields, env.mask(req.prompt).value);
    }
  }
}
