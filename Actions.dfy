/** Game actions as game clients declare them, the per-button status the
    console tracks, and the prompt loop that collects an action's parameters
    (written out twice in the console: once in the dashboard, once in the
    stand-alone action button). */
module Actions {
  import opened JsValues

  /** The feedback state of one (game, action) button. */
  datatype ActionStatus = Idle | Loading | Success | Error

  /** An action a game client offers: an id, a caption (the TypeScript field `label`) and optional parameter names. */
  datatype GameAction = GameAction(id: string, caption: string, params: Option<seq<string>>)

  /** `action.params && action.params.length > 0`: an empty list, truthy as
      it is in JavaScript, still asks for nothing. */
  function HasParams(action: GameAction): (r: bool)
    ensures r ==> action.params.Some?
    ensures action.params == Some([]) ==> !r
    ensures action.params.Some? && action.params.value != [] ==> r
  {
    action.params.Some? && |action.params.value| > 0
  }

  /** The parameters an action asks for, `[]` when it declares none. */
  function ParamsOf(action: GameAction): (ps: seq<string>)
    ensures HasParams(action) <==> ps != []
  {
    if action.params.Some? then action.params.value else []
  }

  /** The user's answer to the n-th `window.prompt` of a collection round:
      the text entered, or `None` when the dialog is cancelled. */
  type Replies = nat -> Option<string>

  /** Some prompt among the first `n` is cancelled. */
  predicate CancelledWithin(reply: Replies, n: nat)
  {
    exists i :: 0 <= i < n && reply(i).None?
  }

  /** Reference definition of the prompt loop: parameters are asked in order,
      every answer is stored under its parameter name (so a repeated name keeps
      its last answer) and a single cancellation voids the whole round. */
  function PromptedPayload(params: seq<string>, reply: Replies): (r: Option<Payload>)
    ensures r.Some? ==> forall k :: k in r.value ==> r.value[k].JString?
    decreases |params|
  {
    if params == [] then Some(map[])
    else
      var n := |params| - 1;
      match PromptedPayload(params[..n], reply)
      case None => None
      case Some(m) =>
        if reply(n).None? then None else Some(m[params[n] := JString(reply(n).value)])
  }

  /** The round yields no payload exactly when one of its prompts is cancelled. */
  lemma {:induction false} PromptedPayloadNoneIffCancelled(params: seq<string>, reply: Replies)
    ensures PromptedPayload(params, reply).None? <==> CancelledWithin(reply, |params|)
    decreases |params|
  {
    if params != [] {
      var n := |params| - 1;
      PromptedPayloadNoneIffCancelled(params[..n], reply);
      if reply(n).None? {
        assert CancelledWithin(reply, |params|);
      }
      if CancelledWithin(reply, |params|) {
        var i :| 0 <= i < |params| && reply(i).None?;
        if i < n {
          assert CancelledWithin(reply, n);
        }
      }
    }
  }

  /** A completed round has exactly the parameter names as keys. */
  lemma {:induction false} PromptedPayloadKeys(params: seq<string>, reply: Replies)
    requires PromptedPayload(params, reply).Some?
    ensures PromptedPayload(params, reply).value.Keys == set p | p in params
    decreases |params|
  {
    if params != [] {
      var n := |params| - 1;
      PromptedPayloadKeys(params[..n], reply);
      assert params == params[..n] + [params[n]];
      assert (set p | p in params) == (set p | p in params[..n]) + {params[n]};
    }
  }

  /** In a completed round each name maps to the answer given at its last occurrence. */
  lemma {:induction false} PromptedPayloadValues(params: seq<string>, reply: Replies, i: nat)
    requires PromptedPayload(params, reply).Some?
    requires i < |params|
    requires forall j :: i < j < |params| ==> params[j] != params[i]
    ensures reply(i).Some?
    ensures params[i] in PromptedPayload(params, reply).value
    ensures PromptedPayload(params, reply).value[params[i]] == JString(reply(i).value)
    decreases |params|
  {
    var n := |params| - 1;
    if i < n {
      PromptedPayloadValues(params[..n], reply, i);
    }
  }

  /** The prompt loop itself (`collectParams` in the dashboard; the inline loop
      of the action button). `asked` is the number of prompts shown: all of
      them, or up to and including the first cancelled one. */
  method CollectParams(params: seq<string>, reply: Replies) returns (payload: Option<Payload>, asked: nat)
    ensures payload == PromptedPayload(params, reply)
    ensures asked <= |params|
    ensures forall j :: 0 <= j < asked - 1 ==> reply(j).Some?
    ensures payload.Some? ==> asked == |params| && (forall j :: 0 <= j < asked ==> reply(j).Some?)
    ensures payload.None? ==> asked >= 1 && reply(asked - 1).None?
  {
    var m: Payload := map[];
    var i := 0;
    while i < |params|
      invariant 0 <= i <= |params|
      invariant PromptedPayload(params[..i], reply) == Some(m)
      invariant forall j :: 0 <= j < i ==> reply(j).Some?
    {
      var value := reply(i);
      if value.None? {
        PromptedPayloadNoneIffCancelled(params, reply);
        return None, i + 1;
      }
      assert params[..i + 1][..i] == params[..i];
      m := m[params[i] := JString(value.value)];
      i := i + 1;
    }
    assert params[..i] == params;
    return Some(m), i;
  }
}
