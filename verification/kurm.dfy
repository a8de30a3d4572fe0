/** The register file of the Unlimited Register Machine (URM).

A registry is a partial map from a register position to the integer it holds.
A position that was never written has no value: reading it yields `None`,
the model of Kotlin's `null` for an `Int?` result.
 */
module Kurm {

  /** The optional value of a partial read. */
  datatype Option<T> = None | Some(value: T)

  /** Register position |-> value; an absent position is an unset register. */
  type Registry = map<int, int>

  /** The registry in which no register has been written yet. */
  const Empty: Registry := map[]

  /** Partial read of one register: `None` exactly when it was never set. */
  function Get(registry: Registry, position: int): (r: Option<int>)
    ensures r.None? <==> position !in registry
    ensures r.Some? ==> r.value == registry[position]
  {
    if position in registry then Some(registry[position]) else None
  }

  /** Write one register. The written position reads back the new value,
      every other position reads what it read before, and exactly one
      position may have become set. */
  function Set(registry: Registry, position: int, value: int): (r: Registry)
    ensures Get(r, position) == Some(value)
    ensures forall p :: p != position ==> Get(r, p) == Get(registry, p)
    ensures r.Keys == registry.Keys + {position}
  {
    registry[position := value]
  }

  /** A later write to the same position replaces the earlier one entirely. */
  lemma SetOverwrites(registry: Registry, position: int, first: int, second: int)
    ensures Set(Set(registry, position, first), position, second) == Set(registry, position, second)
  {
  }

  /** Writes to two different positions commute. */
  lemma SetCommutes(registry: Registry, p: int, v: int, q: int, w: int)
    requires p != q
    ensures Set(Set(registry, p, v), q, w) == Set(Set(registry, q, w), p, v)
  {
  }
}
