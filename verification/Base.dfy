/** Small building blocks shared by every component of the pipeline model. */
module Base {

  /** An opaque identifier. Only equality and its total order matter (SQL compares
      attempt ids with COLLATE "C", the generator compares generations, and so on). */
  type Id = int

  /** A timestamp; the pipeline compares and takes maxima of times, never subtracts them. */
  type Time = int

  datatype Option<+T> = None | Some(value: T)

  datatype Result<+T, +E> = Ok(value: T) | Err(error: E)

  function Max(a: int, b: int): (m: int)
    ensures m >= a && m >= b && (m == a || m == b)
  {
    if a >= b then a else b
  }

  function Max3(a: int, b: int, c: int): (m: int)
    ensures m >= a && m >= b && m >= c && (m == a || m == b || m == c)
  {
    Max(a, Max(b, c))
  }

  /** Lexicographic order on (time, id) pairs: the order in which scan attempts supersede
      each other. */
  predicate Before(t1: Time, id1: Id, t2: Time, id2: Id) {
    t1 < t2 || (t1 == t2 && id1 < id2)
  }

  function Get<K, V>(m: map<K, V>, k: K): Option<V> {
    if k in m then Some(m[k]) else None
  }

  function Members<T(!new)>(s: seq<T>): (m: set<T>)
    ensures forall x :: x in m <==> x in s
  {
    set x | x in s
  }
}
