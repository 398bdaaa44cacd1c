/** Request validation (src/component/validate.ts): validation chains are
    run against a request one after another, each recording its errors on
    the request, and the collected errors are then shaped into nothing, one
    error, or the list of errors. */
module Validation {
  import opened Js

  /** One error a validation chain records: where the value was, which
      field, the message, and the offending value. */
  datatype ValidationError = ValidationError(location: string, path: string, msg: string, value: JsValue)

  /** What running one chain does to a request: the body after its
      sanitisers, and the errors its validators found, in order. */
  datatype ChainResult = ChainResult(body: JsValue, errors: seq<ValidationError>)

  /** A validation chain, as the function from the body it sees to its
      result. */
  datatype Chain = Chain(run: JsValue -> ChainResult)

  /** The request a chain runs on: its body and the errors recorded on it. */
  class Request {
    var body: JsValue
    var errors: seq<ValidationError>

    constructor (body: JsValue)
      ensures this.body == body && errors == []
    {
      this.body := body;
      this.errors := [];
    }
  }

  /** Running `chains` in order from `body`: each chain sees the body the
      previous ones left, and the errors are those of the first chain, then
      the second, and so on. */
  function RunChains(chains: seq<Chain>, body: JsValue): (r: ChainResult)
    ensures chains == [] ==> r == ChainResult(body, [])
    ensures |chains| >= 1 ==> chains[0].run(body).errors <= r.errors
    decreases |chains|
  {
    if chains == [] then ChainResult(body, [])
    else
      var before := RunChains(chains[..|chains| - 1], body);
      var last := chains[|chains| - 1].run(before.body);
      ChainResult(last.body, before.errors + last.errors)
  }

  /** Running `a + b` is running `a` and then `b` from where `a` left the
      body; the errors of `a` come first. */
  lemma {:induction false} RunChainsAppend(a: seq<Chain>, b: seq<Chain>, body: JsValue)
    ensures var ra := RunChains(a, body);
            var rb := RunChains(b, ra.body);
            RunChains(a + b, body) == ChainResult(rb.body, ra.errors + rb.errors)
    decreases |b|
  {
    if b == [] {
      assert a + b == a;
    } else {
      var init := b[..|b| - 1];
      RunChainsAppend(a, init, body);
      assert (a + b)[..|a + b| - 1] == a + init;
    }
  }

  /** What `validate` returns: `undefined`, a single error, or an array. */
  datatype Validated = NoErrors | Single(error: ValidationError) | Many(errors: seq<ValidationError>)

  /** The errors a returned value carries. */
  function Flat(v: Validated): seq<ValidationError>
  {
    match v
    case NoErrors => []
    case Single(e) => [e]
    case Many(es) => es
  }

  /** The shaping of the collected errors: nothing when there are none; the
      error itself when there is exactly one and an array is not required;
      the whole list, in order, otherwise. No error is lost or reordered. */
  function Shape(errors: seq<ValidationError>, requireArray: bool): (v: Validated)
    ensures v.NoErrors? <==> errors == []
    ensures v.Single? <==> !requireArray && |errors| == 1
    ensures v.Many? <==> errors != [] && (requireArray || |errors| >= 2)
    ensures Flat(v) == errors
  {
    if errors == [] then NoErrors
    else if !requireArray && |errors| == 1 then Single(errors[0])
    else Many(errors)
  }

  /** `validate(chains, req, requireArray)`: runs every chain on the
      request in order, then shapes all errors recorded on it. */
  method Validate(chains: seq<Chain>, req: Request, requireArray: bool := false) returns (v: Validated)
    modifies req
    ensures req.body == RunChains(chains, old(req.body)).body
    ensures req.errors == old(req.errors) + RunChains(chains, old(req.body)).errors
    ensures v == Shape(req.errors, requireArray)
  {
    var i := 0;
    while i < |chains|
      invariant 0 <= i <= |chains|
      invariant req.body == RunChains(chains[..i], old(req.body)).body
      invariant req.errors == old(req.errors) + RunChains(chains[..i], old(req.body)).errors
    {
      var result := chains[i].run(req.body);
      assert chains[..i + 1][..i] == chains[..i];
      req.body, req.errors := result.body, req.errors + result.errors;
      i := i + 1;
    }
    assert chains[..i] == chains;
    v := Shape(req.errors, requireArray);
  }
}
