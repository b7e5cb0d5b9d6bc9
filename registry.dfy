/**
 * The registration rule shared by both service locators: a dictionary keyed
 * by a type name, where the first registration under a key wins and every
 * later registration under that key is silently ignored.
 */
module Registry {
  import opened Wrappers

  /** `if services[key] == nil { services[key] = value }` */
  function Register<V>(m: map<string, V>, key: string, value: V): (r: map<string, V>)
    ensures key in r
    ensures key in m ==> r == m
    ensures key !in m ==> r[key] == value
    ensures r.Keys == m.Keys + {key}
    ensures forall k :: k in m ==> r[k] == m[k]
  {
    if key in m then m else m[key := value]
  }

  /** The lookup both locators start with: the stored entry, or none. */
  function Lookup<V>(m: map<string, V>, key: string): (r: Option<V>)
    ensures r.Some? <==> key in m
    ensures r.Some? ==> r.value == m[key]
  {
    if key in m then Some(m[key]) else None
  }

  /** A registration under a key that is already present changes nothing. */
  lemma RegisterTwice<V>(m: map<string, V>, key: string, first: V, second: V)
    ensures Register(Register(m, key, first), key, second) == Register(m, key, first)
  {
  }

  /** Registering under one key never changes what another key looks up to. */
  lemma RegisterIsolated<V>(m: map<string, V>, key: string, value: V, other: string)
    requires other != key
    ensures Lookup(Register(m, key, value), other) == Lookup(m, other)
  {
  }

  /** A sequence of `addDependency` calls, applied in order. */
  function RegisterAll<V>(m: map<string, V>, regs: seq<(string, V)>): (r: map<string, V>)
    decreases |regs|
  {
    if regs == [] then m else RegisterAll(Register(m, regs[0].0, regs[0].1), regs[1..])
  }

  /** The value of the first registration of `key` in `regs`, if any. */
  function FirstRegistration<V>(regs: seq<(string, V)>, key: string): (r: Option<V>)
    decreases |regs|
  {
    if regs == [] then None
    else if regs[0].0 == key then Some(regs[0].1)
    else FirstRegistration(regs[1..], key)
  }

  /**
   * First registration wins, whatever comes after it: after any sequence of
   * registrations, a key already present keeps its entry, and a fresh key
   * holds the value of its first registration in the sequence (and is absent
   * when the sequence never registers it).
   */
  lemma {:induction false} RegisterAllFirstWins<V>(m: map<string, V>, regs: seq<(string, V)>, key: string)
    ensures key in m ==> Lookup(RegisterAll(m, regs), key) == Some(m[key])
    ensures key !in m ==> Lookup(RegisterAll(m, regs), key) == FirstRegistration(regs, key)
    decreases |regs|
  {
    if regs != [] {
      var m' := Register(m, regs[0].0, regs[0].1);
      RegisterAllFirstWins(m', regs[1..], key);
    }
  }
}
