/** Small shared vocabulary: optional values, condition states and the finite answers of a remote call. */
module Common {

  datatype Option<+T> = None | Some(value: T)

  /** The state of one condition type on an object: a map from type to status, read at one type. */
  datatype Condition = Unset | IsTrue | IsFalse

  /** How an API write ends, seen from the caller. `ReplyLost` took effect on the server, but the caller
      sees an error; `Rejected` did not take effect. */
  datatype WriteResult = Applied | ReplyLost | Rejected

  function Last<T>(s: seq<T>): T
    requires |s| > 0
  {
    s[|s| - 1]
  }

  function Max(a: int, b: int): int { if a < b then b else a }

  function Min(a: int, b: int): int { if a < b then a else b }

  /** A generated name of an object at an agent. Its random part keeps names made for different agents apart. */
  datatype Name = Name(agent: string, id: nat)

  /** What an agent holds, over what each of them stores. */
  function Held<T>(stores: map<string, seq<T>>, agent: string): seq<T> {
    if agent in stores then stores[agent] else []
  }
}
