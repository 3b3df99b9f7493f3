/**
 The RPC endpoint fallback rule of the dashboard (`tryRPCEndpoints`).

 The endpoint list is a sequence of optional strings. An entry is skipped
 when it is falsy: absent (`undefined`) or empty (an empty environment
 override). The operation passed to the rule is an oracle from an endpoint
 to the outcome of running the operation against a connection to it. A
 failed outcome stands for an exception from either building the connection
 or the operation itself. The rule tries the present entries in order,
 returns the first success, and stops there.
 */
module Fallback {
  import opened Outcomes

  /** The message of the error thrown when no endpoint succeeds. */
  const AllEndpointsFailed := "All RPC endpoints failed"

  /** `RPC_ENDPOINTS`: the environment override, then the two fixed fallbacks.
      `heliusUrl` is the fixed Helius mainnet URL written in the component, and
      `clusterUrl` is the value of `clusterApiUrl('mainnet-beta')`, a library call. */
  function RpcEndpoints(envOverride: Option<string>, heliusUrl: string, clusterUrl: string): (eps: seq<Option<string>>)
    ensures |eps| == 3
    ensures eps[0] == envOverride && eps[1] == Some(heliusUrl) && eps[2] == Some(clusterUrl)
  {
    [envOverride, Some(heliusUrl), Some(clusterUrl)]
  }

  /** The JavaScript truthiness test `if (endpoint)` on a `string | undefined`:
      the only falsy values of that type are `undefined` and `""`. */
  predicate Present(e: Option<string>)
    ensures Present(e) <==> e !in {None, Some("")}
  {
    e.Some? && e.value != ""
  }

  /** The present endpoints of the list, in list order. */
  function Presents(eps: seq<Option<string>>): (r: seq<string>)
    ensures |r| <= |eps|
    ensures forall k :: 0 <= k < |r| ==> r[k] != ""
    ensures forall x :: x in r <==> exists i :: 0 <= i < |eps| && Present(eps[i]) && eps[i].value == x
  {
    if eps == [] then []
    else if Present(eps[0]) then [eps[0].value] + Presents(eps[1..])
    else Presents(eps[1..])
  }

  /** The present endpoints of a concatenation are those of the first part
      followed by those of the second: `Presents` keeps list order. */
  lemma {:induction false} PresentsAppend(a: seq<Option<string>>, b: seq<Option<string>>)
    ensures Presents(a + b) == Presents(a) + Presents(b)
  {
    if a == [] {
      assert a + b == b;
    } else {
      assert (a + b)[0] == a[0];
      assert (a + b)[1..] == a[1..] + b;
      PresentsAppend(a[1..], b);
    }
  }

  /** Reference outcome of the rule: the outcome of the first present endpoint
      whose operation succeeds, otherwise the "all failed" error. */
  function FirstSuccess<T>(eps: seq<Option<string>>, op: string -> Result<T>): Result<T>
  {
    if eps == [] then Err(AllEndpointsFailed)
    else if Present(eps[0]) && op(eps[0].value).Ok? then op(eps[0].value)
    else FirstSuccess(eps[1..], op)
  }

  /** Reference trace of the rule: the endpoints the operation is invoked on,
      in order, ending with the first one that succeeds. */
  function Attempts<T>(eps: seq<Option<string>>, op: string -> Result<T>): seq<string>
  {
    if eps == [] then []
    else if !Present(eps[0]) then Attempts(eps[1..], op)
    else if op(eps[0].value).Ok? then [eps[0].value]
    else [eps[0].value] + Attempts(eps[1..], op)
  }

  /** `tryRPCEndpoints(fetchFunction)`. `invoked` lists the endpoints on which
      the operation ran; each failure among them is logged and skipped. */
  method TryEndpoints<T>(endpoints: seq<Option<string>>, op: string -> Result<T>)
      returns (r: Result<T>, invoked: seq<string>)
    ensures r == FirstSuccess(endpoints, op)
    ensures invoked == Attempts(endpoints, op)
  {
    invoked := [];
    for i := 0 to |endpoints|
      invariant FirstSuccess(endpoints, op) == FirstSuccess(endpoints[i..], op)
      invariant Attempts(endpoints, op) == invoked + Attempts(endpoints[i..], op)
    {
      assert endpoints[i..][1..] == endpoints[i + 1..];
      var endpoint := endpoints[i];
      if Present(endpoint) {
        var result := op(endpoint.value);
        invoked := invoked + [endpoint.value];
        if result.Ok? {
          return result, invoked;
        }
        // the failure is logged and the next endpoint is tried
      }
    }
    r := Err(AllEndpointsFailed);
  }

  /** The rule succeeds exactly when some present endpoint succeeds; otherwise
      it fails with the "all failed" message. In both cases an `Ok` outcome is
      the outcome of some present endpoint. */
  lemma {:induction false} SucceedsIffSomePresentSucceeds<T>(eps: seq<Option<string>>, op: string -> Result<T>)
    ensures FirstSuccess(eps, op).Ok? <==>
            exists i :: 0 <= i < |eps| && Present(eps[i]) && op(eps[i].value).Ok?
    ensures FirstSuccess(eps, op).Err? ==> FirstSuccess(eps, op) == Err(AllEndpointsFailed)
    ensures FirstSuccess(eps, op).Ok? ==>
            exists i :: 0 <= i < |eps| && Present(eps[i]) && op(eps[i].value) == FirstSuccess(eps, op)
  {
    if eps != [] {
      SucceedsIffSomePresentSucceeds(eps[1..], op);
      if !(Present(eps[0]) && op(eps[0].value).Ok?) {
        forall i | 1 <= i < |eps|
          ensures eps[i] == eps[1..][i - 1]
        {
        }
        if FirstSuccess(eps, op).Ok? {
          var j :| 0 <= j < |eps[1..]| && Present(eps[1..][j]) && op(eps[1..][j].value) == FirstSuccess(eps, op);
          assert eps[j + 1] == eps[1..][j];
        }
      }
    }
  }

  /** First success wins: when endpoint `i` is the first present one whose
      operation succeeds, the rule returns its outcome, and the operation was
      invoked on exactly the present endpoints up to and including `i`. */
  lemma {:induction false} FirstSuccessWins<T>(eps: seq<Option<string>>, op: string -> Result<T>, i: nat)
    requires i < |eps| && Present(eps[i]) && op(eps[i].value).Ok?
    requires forall j :: 0 <= j < i && Present(eps[j]) ==> op(eps[j].value).Err?
    ensures FirstSuccess(eps, op) == op(eps[i].value)
    ensures Attempts(eps, op) == Presents(eps[..i + 1])
  {
    if i == 0 {
      assert eps[..1] == [eps[0]];
      assert eps[..1][1..] == [];
    } else {
      assert eps[..i + 1][1..] == eps[1..][..i];
      assert forall j :: 0 <= j < i - 1 ==> eps[1..][j] == eps[j + 1];
      FirstSuccessWins(eps[1..], op, i - 1);
      assert eps[..i + 1][0] == eps[0];
    }
  }

  /** Exhaustion: when every present endpoint fails (in particular when none
      is present), the rule fails with "All RPC endpoints failed" after
      invoking the operation on every present endpoint, in list order. */
  lemma {:induction false} AllFailExhausts<T>(eps: seq<Option<string>>, op: string -> Result<T>)
    requires forall j :: 0 <= j < |eps| && Present(eps[j]) ==> op(eps[j].value).Err?
    ensures FirstSuccess(eps, op) == Err(AllEndpointsFailed)
    ensures Attempts(eps, op) == Presents(eps)
  {
    if eps != [] {
      assert forall j :: 0 <= j < |eps| - 1 ==> eps[1..][j] == eps[j + 1];
      AllFailExhausts(eps[1..], op);
    }
  }

  /** Shape of every run: the endpoints tried are a prefix of the present
      endpoints (list order, absent and empty entries skipped), every tried
      endpoint but the last failed, and the outcome is the last one's when
      it succeeded. */
  lemma {:induction false} AttemptsArePresentPrefix<T>(eps: seq<Option<string>>, op: string -> Result<T>)
    ensures var a := Attempts(eps, op);
            |a| <= |Presents(eps)| && a == Presents(eps)[..|a|]
    ensures var a := Attempts(eps, op);
            forall k :: 0 <= k < |a| - 1 ==> op(a[k]).Err?
    ensures var a := Attempts(eps, op);
            FirstSuccess(eps, op).Ok? ==> a != [] && FirstSuccess(eps, op) == op(a[|a| - 1])
    ensures FirstSuccess(eps, op).Err? ==>
              Attempts(eps, op) == Presents(eps) &&
              forall k :: 0 <= k < |Presents(eps)| ==> op(Presents(eps)[k]).Err?
  {
    if eps != [] {
      AttemptsArePresentPrefix(eps[1..], op);
      var rest, prest := Attempts(eps[1..], op), Presents(eps[1..]);
      if Present(eps[0]) && op(eps[0].value).Err? {
        assert Attempts(eps, op) == [eps[0].value] + rest;
        assert Presents(eps) == [eps[0].value] + prest;
        assert ([eps[0].value] + prest)[..1 + |rest|] == [eps[0].value] + prest[..|rest|];
      }
    }
  }

  /** With the deployed endpoint list, whose Helius URL is a non-empty literal,
      the first endpoint tried is the environment override when it is set and
      non-empty, otherwise Helius. */
  lemma FirstAttemptOnDeployedList<T>(envOverride: Option<string>, heliusUrl: string, clusterUrl: string,
                                      op: string -> Result<T>)
    requires heliusUrl != ""
    ensures var a := Attempts(RpcEndpoints(envOverride, heliusUrl, clusterUrl), op);
            a != [] && a[0] == if Present(envOverride) then envOverride.value else heliusUrl
  {
  }

  /** One run: `[absent, "A", "B"]` where the operation fails on "A" and
      succeeds on "B". The outcome is B's, "A" is tried and skipped, and the
      absent entry is never handed to the operation. */
  lemma SkipAbsentThenFallBack(v: int)
    ensures var op := (e: string) => if e == "B" then Ok(v) else Err("request failed");
            var eps := [None, Some("A"), Some("B")];
            FirstSuccess(eps, op) == Ok(v) && Attempts(eps, op) == ["A", "B"]
  {
  }
}
