/** Python runtime behaviour the model relies on: the exceptions the core can
    raise, list indexing with negative indices, dictionary lookup and slicing. */
module Python {

  datatype Option<+T> = None | Some(value: T)

  /** The exceptions raised by the modelled code. */
  datatype Error =
    | IndexError(index: int, length: nat)   // list index out of range
    | KeyError(key: string)                 // missing dictionary key
    | AttributeError(name: string)          // attribute never assigned in __init__
    | StackError                            // torch.stack of an empty list
    | RuntimeError(message: string)         // explicit raise

  /** A value or the exception that aborted the computation; usable with `:-`. */
  datatype Result<+T> = Ok(value: T) | Err(error: Error) {
    predicate IsFailure() { Err? }

    function PropagateFailure<U>(): Result<U>
      requires Err?
    {
      Err(error)
    }

    function Extract(): T
      requires Ok?
    {
      value
    }
  }

  function Min(a: int, b: int): int { if a <= b then a else b }

  /** The element a Python index designates: negative indices count from the end. */
  function Position(i: int, length: nat): int { if i >= 0 then i else length + i }

  /** `s[i]` on a Python list. */
  function At<T>(s: seq<T>, i: int): (r: Result<T>)
    ensures r.Ok? <==> -|s| <= i < |s|
    ensures r.Ok? ==> 0 <= Position(i, |s|) < |s| && r.value == s[Position(i, |s|)]
    ensures r.Err? ==> r.error == IndexError(i, |s|)
  {
    if 0 <= i < |s| then Ok(s[i])
    else if -|s| <= i < 0 then Ok(s[|s| + i])
    else Err(IndexError(i, |s|))
  }

  /** `m[key]` on a Python dictionary. */
  function Get<V>(m: map<string, V>, key: string): (r: Result<V>)
    ensures r.Ok? <==> key in m
    ensures r.Ok? ==> r.value == m[key]
    ensures r.Err? ==> r.error == KeyError(key)
  {
    if key in m then Ok(m[key]) else Err(KeyError(key))
  }

  /** `s[:n]`: the first n elements, or all of s when it is shorter. */
  function Prefix<T>(s: seq<T>, n: nat): (r: seq<T>)
    ensures |r| == Min(|s|, n)
    ensures r == s[..|r|]
  {
    if |s| <= n then s else s[..n]
  }
}
