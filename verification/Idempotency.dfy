/** Endpoints that require an idempotency key: the response of the first request under a key is
    saved and replayed while it lives. The handler is any function of the application's state. */
module Idempotency {
  import opened Wrappers

  datatype Response = Response(code: nat, body: string)

  /** What a saved response remembers of its request is only the hash of the body. */
  datatype Saved = Saved(hash: string, response: Response)

  /** A handler changes the state and answers, or raises. */
  datatype Handled<S> = Handled(state: S, response: Option<Response>)

  type Handler<!S> = (S, Option<string>) -> Handled<S>

  datatype Reply = Replied(response: Response) | Raised

  const KEY_REQUIRED := Response(400, "Idempotency-Key header is required")
  const KEY_REUSED := Response(422, "Idempotency-Key reused with different request body")

  /** JSON texts whose value is falsy. */
  predicate IsFalsy(text: string) {
    text in ["null", "false", "0", "0.0", "-0.0", "\"\"", "[]", "{}"]
  }

  /** A body that is no JSON, none at all, or falsy counts as an empty object. */
  predicate IsEmptyBody(body: Option<string>) {
    body.None? || IsFalsy(body.value)
  }

  /** The canonical text of a body stands for its hash. */
  function HashOf(body: Option<string>): string {
    if IsEmptyBody(body) then "{}" else body.value
  }

  /** Two bodies hash alike exactly when they are the same text or both count as empty. */
  lemma HashTellsBodies(body: Option<string>, other: Option<string>)
    ensures HashOf(body) == HashOf(other) <==> body == other || (IsEmptyBody(body) && IsEmptyBody(other))
    ensures IsEmptyBody(body) <==>
              body == None || body.value in ["null", "false", "0", "0.0", "-0.0", "\"\"", "[]", "{}"]
  {
    assert IsFalsy("{}");
  }

  /* ---------- The endpoint on values ---------- */

  datatype Service<S> = Service(state: S, cache: map<string, Saved>, rows: map<string, Saved>)

  function Lookup<S>(x: Service<S>, key: string): Option<Saved> {
    if key in x.cache then Some(x.cache[key]) else if key in x.rows then Some(x.rows[key]) else None
  }

  function Remember<S>(x: Service<S>, key: string, saved: Saved, kept: bool): Service<S> {
    x.(cache := x.cache[key := saved], rows := if kept then x.rows[key := saved] else x.rows)
  }

  /** `kept` says whether the row that saves the response is committed with the request. */
  function Handle<S>(x: Service<S>, handler: Handler<S>, key: Option<string>, body: Option<string>, kept: bool)
    : (Service<S>, Reply)
  {
    if key.None? || key.value == "" then (x, Replied(KEY_REQUIRED))
    else match Lookup(x, key.value)
      case Some(saved) =>
        (x.(cache := x.cache[key.value := saved]),
         Replied(if saved.hash == HashOf(body) then saved.response else KEY_REUSED))
      case None =>
        var done := handler(x.state, body);
        var x' := x.(state := done.state);
        match done.response
        case None => (x', Raised)
        case Some(response) => (Remember(x', key.value, Saved(HashOf(body), response), kept), Replied(response))
  }

  /** The cache may lose a response at any time; a committed row stays. */
  datatype Step = Call(key: Option<string>, body: Option<string>, kept: bool) | Lose(lost: string)

  function Take<S>(x: Service<S>, handler: Handler<S>, step: Step): Service<S> {
    match step
    case Call(key, body, kept) => Handle(x, handler, key, body, kept).0
    case Lose(key) => x.(cache := x.cache - {key})
  }

  function Run<S>(x: Service<S>, handler: Handler<S>, steps: seq<Step>): Service<S> {
    if steps == [] then x else Take(Run(x, handler, steps[..|steps| - 1]), handler, steps[|steps| - 1])
  }

  /* ---------- The endpoint as it runs ---------- */

  class Endpoint<S> {
    var state: S
    var cache: map<string, Saved>
    var rows: map<string, Saved>

    function Value(): Service<S>
      reads this
    {
      Service(state, cache, rows)
    }

    constructor (state: S)
      ensures Value() == Service(state, map[], map[])
    {
      this.state, cache, rows := state, map[], map[];
    }

    /** A row found in the table is put back into the cache. */
    method GetExistingResponse(key: string) returns (found: Option<Saved>)
      modifies this`cache
      ensures found
           == if key in old(cache) then Some(old(cache)[key]) else if key in rows then Some(rows[key]) else None
      ensures found == Lookup(old(Value()), key)
      ensures cache == if found.Some? then old(cache)[key := found.value] else old(cache)
    {
      if key in cache {
        assert cache == cache[key := cache[key]];
        return Some(cache[key]);
      }
      if key !in rows {
        return None;
      }
      cache := cache[key := rows[key]];
      return Some(rows[key]);
    }

    method SaveResponse(key: string, hash: string, response: Response, kept: bool)
      requires key !in rows
      modifies this`cache, this`rows
      ensures cache == old(cache)[key := Saved(hash, response)]
      ensures rows == if kept then old(rows)[key := Saved(hash, response)] else old(rows)
      ensures Value() == Remember(old(Value()), key, Saved(hash, response), kept)
    {
      if kept {
        rows := rows[key := Saved(hash, response)];
      }
      cache := cache[key := Saved(hash, response)];
    }

    method Request(handler: Handler<S>, key: Option<string>, body: Option<string>, kept: bool) returns (reply: Reply)
      modifies this
      ensures (Value(), reply) == Handle(old(Value()), handler, key, body, kept)
    {
      if key.None? || key.value == "" {
        return Replied(KEY_REQUIRED);
      }
      var hash := HashOf(body);
      var existing := GetExistingResponse(key.value);
      if existing.Some? {
        if existing.value.hash != hash {
          return Replied(KEY_REUSED);
        }
        return Replied(existing.value.response);
      }
      var done := handler(state, body);
      state := done.state;
      if done.response.None? {
        return Raised;
      }
      SaveResponse(key.value, hash, done.response.value, kept);
      return Replied(done.response.value);
    }

    method Expire(key: string)
      modifies this`cache
      ensures cache == old(cache) - {key}
    {
      cache := cache - {key};
    }
  }

  /* ---------- Replay ---------- */

  /** The cache and the table never contradict each other. */
  ghost predicate Agree<S>(x: Service<S>) {
    forall key | key in x.cache && key in x.rows :: x.cache[key] == x.rows[key]
  }

  lemma {:induction false} RunAgrees<S>(x: Service<S>, handler: Handler<S>, steps: seq<Step>)
    requires Agree(x)
    ensures Agree(Run(x, handler, steps))
  {
    if steps != [] {
      RunAgrees(x, handler, steps[..|steps| - 1]);
    }
  }

  /** The saved response of a key outlives the steps: its row is committed, or the cache does not
      lose it. */
  predicate Outlives<S>(x: Service<S>, steps: seq<Step>, key: string) {
    key in x.rows || Lose(key) !in steps
  }

  lemma {:induction false} SavedStays<S>(x: Service<S>, handler: Handler<S>, steps: seq<Step>, key: string)
    requires Agree(x) && Lookup(x, key).Some? && Outlives(x, steps, key)
    ensures Lookup(Run(x, handler, steps), key) == Lookup(x, key)
    ensures key in x.rows ==> key in Run(x, handler, steps).rows
  {
    if steps != [] {
      var init, last := steps[..|steps| - 1], steps[|steps| - 1];
      assert last in steps && forall step | step in init :: step in steps;
      SavedStays(x, handler, init, key);
      RunAgrees(x, handler, init);
    }
  }

  /** What a call answers, and what it leaves behind: 400 without a key; the handler's own response, now
      saved with the body's hash, if none was; else the saved response, or 422 for another body. */
  lemma CallIsAnswered<S>(x: Service<S>, handler: Handler<S>, key: Option<string>, body: Option<string>, kept: bool)
    ensures var (x', reply) := Handle(x, handler, key, body, kept);
            key == None || key == Some("") ==> x' == x && reply.Replied? && reply.response.code == 400
    ensures var (x', reply) := Handle(x, handler, key, body, kept);
            key.Some? && key.value != "" && Lookup(x, key.value).None? ==>
              var done := handler(x.state, body);
              && x'.state == done.state
              && reply == (if done.response.Some? then Replied(done.response.value) else Raised)
              && (done.response.None? ==> x'.cache == x.cache && x'.rows == x.rows)
              && (done.response.Some? ==>
                    var saved := Saved(HashOf(body), done.response.value);
                    && Lookup(x', key.value) == Some(saved) && x'.cache == x.cache[key.value := saved]
                    && x'.rows == if kept then x.rows[key.value := saved] else x.rows)
    ensures var (x', reply) := Handle(x, handler, key, body, kept);
            key.Some? && key.value != "" && Lookup(x, key.value).Some? ==>
              var saved := Lookup(x, key.value).value;
              && x'.state == x.state && x'.rows == x.rows && x'.cache == x.cache[key.value := saved]
              && reply.Replied?
              && if saved.hash == HashOf(body) then reply.response == saved.response else reply.response.code == 422
  {
  }

  /** While a key's response lives, whatever else happens in between, a request under the key is
      answered with the very response that the handler gave first if its body is the first one's, and
      with 422 if it is not; the handler does not run and the state does not change. */
  lemma LiveKeyIsReplayed<S>(x: Service<S>, handler: Handler<S>, first: Step, response: Response, steps: seq<Step>,
                             again: Option<string>, kept: bool)
    requires Agree(x) && first.Call? && first.key.Some? && first.key.value != "" && Lookup(x, first.key.value).None?
    requires handler(x.state, first.body).response == Some(response)
    requires Outlives(Take(x, handler, first), steps, first.key.value)
    ensures Handle(x, handler, first.key, first.body, first.kept).1 == Replied(response)
    ensures var y := Run(Take(x, handler, first), handler, steps);
            var (z, reply) := Handle(y, handler, first.key, again, kept);
            && z.state == y.state && z.rows == y.rows
            && reply.Replied?
            && if again == first.body || (IsEmptyBody(again) && IsEmptyBody(first.body)) then reply.response == response
               else reply.response.code == 422
  {
    var x' := Take(x, handler, first);
    assert Agree(x') && Lookup(x', first.key.value) == Some(Saved(HashOf(first.body), response));
    SavedStays(x', handler, steps, first.key.value);
    HashTellsBodies(again, first.body);
  }

  /* ---------- Effects happen once ---------- */

  /** Does this step run the handler? */
  predicate Runs<S>(x: Service<S>, step: Step) {
    step.Call? && step.key.Some? && step.key.value != "" && Lookup(x, step.key.value).None?
  }

  predicate Answers<S>(x: Service<S>, handler: Handler<S>, step: Step) {
    Runs(x, step) && handler(x.state, step.body).response.Some?
  }

  /** The steps at which the handler runs. */
  function Effective<S>(x: Service<S>, handler: Handler<S>, steps: seq<Step>): seq<Step> {
    if steps == [] then []
    else
      var init := steps[..|steps| - 1];
      Effective(x, handler, init) + if Runs(Run(x, handler, init), steps[|steps| - 1]) then [steps[|steps| - 1]] else []
  }

  /** The state after running the handler on each of the bodies in turn. */
  function Effects<S>(state: S, handler: Handler<S>, calls: seq<Step>): S
    requires forall step | step in calls :: step.Call?
  {
    if calls == [] then state
    else handler(Effects(state, handler, calls[..|calls| - 1]), calls[|calls| - 1].body).state
  }

  function AnswersTo<S>(x: Service<S>, handler: Handler<S>, steps: seq<Step>, key: string): nat {
    if steps == [] then 0
    else
      var before := Run(x, handler, steps[..|steps| - 1]);
      AnswersTo(x, handler, steps[..|steps| - 1], key)
      + if Answers(before, handler, steps[|steps| - 1]) && steps[|steps| - 1].key == Some(key) then 1 else 0
  }

  lemma {:induction false} OnlyEffectiveCallsCount<S>(x: Service<S>, handler: Handler<S>, steps: seq<Step>)
    ensures forall step | step in Effective(x, handler, steps) :: step.Call?
    ensures Run(x, handler, steps).state == Effects(x.state, handler, Effective(x, handler, steps))
  {
    if steps != [] {
      var init, last := steps[..|steps| - 1], steps[|steps| - 1];
      OnlyEffectiveCallsCount(x, handler, init);
      var calls := Effective(x, handler, init);
      if Runs(Run(x, handler, init), last) {
        assert (calls + [last])[..|calls|] == calls;
      } else {
        assert Effective(x, handler, steps) == calls;
      }
    }
  }

  /** From a state without a response for the key, and as long as the cache does not lose it, the
      handler has answered under the key exactly once if a response is saved and never otherwise. */
  lemma {:induction false} HandlerAnswersOnce<S>(x: Service<S>, handler: Handler<S>, steps: seq<Step>, key: string)
    requires key != "" && Lookup(x, key).None? && Lose(key) !in steps
    ensures AnswersTo(x, handler, steps, key) == if Lookup(Run(x, handler, steps), key).Some? then 1 else 0
  {
    if steps != [] {
      var init, last := steps[..|steps| - 1], steps[|steps| - 1];
      assert last in steps && forall step | step in init :: step in steps;
      HandlerAnswersOnce(x, handler, init, key);
    }
  }
}
