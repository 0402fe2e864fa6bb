/** The two asynchronous conventions the email service composes: a Node-style
    callback `(err, value)` that settles a promise, and `Promise.all` over two
    promises. Time is not modelled: a promise is represented by the value it
    settles with. */
module Promises {
  import opened JsValues

  /** The two arguments a Node-style callback receives. */
  datatype Reply = Reply(err: Value, value: Value)

  /** How a promise settled. */
  datatype Settled = Resolved(value: Value) | Rejected(reason: Value)

  /** `(err, value) => { if (err) { return reject(err); } return resolve(value); }` */
  function Settle(reply: Reply): (s: Settled)
    ensures s.Rejected? <==> Truthy(reply.err)
    ensures s.Rejected? ==> s.reason == reply.err
    ensures s.Resolved? ==> s.value == reply.value
  {
    if Truthy(reply.err) then Rejected(reply.err) else Resolved(reply.value)
  }

  /** `Promise.all([a, b])`: resolves with the array of both values when both
      resolve, and otherwise rejects with the reason of one that rejected.
      Which failure wins when both fail depends on timing; this model reports
      the first one, and the contract promises no more than "one of them". */
  function All2(a: Settled, b: Settled): (r: Settled)
    ensures r.Resolved? <==> a.Resolved? && b.Resolved?
    ensures r.Resolved? ==> r.value == Arr([a.value, b.value])
    ensures r.Rejected? ==> (a.Rejected? && r == a) || (b.Rejected? && r == b)
  {
    if a.Rejected? then a
    else if b.Rejected? then b
    else Resolved(Arr([a.value, b.value]))
  }
}
