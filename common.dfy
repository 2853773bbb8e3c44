/** An optional value: a record that is present or not, a lookup that hits or misses. */
module Wrappers {

  datatype Option<+T> = None | Some(value: T) {

    /** The value, or `default` when there is none (JavaScript's `x || default` on a record). */
    function GetOr(default: T): T {
      match this
      case Some(v) => v
      case None => default
    }
  }

  /** The record under `key`, absent when the key is missing. */
  function Lookup<K, V>(m: map<K, V>, key: K): (r: Option<V>)
    ensures r.Some? <==> key in m
    ensures r.Some? ==> r.value == m[key]
  {
    if key in m then Some(m[key]) else None
  }
}

/**
 * Storage keys built from a fixed prefix and an identity, as the stores build
 * `ecomCartItems_<id>` and `ecomOrderHistory_<id>`.
 */
module Keys {

  predicate HasPrefix(prefix: string, key: string) {
    |prefix| <= |key| && key[..|prefix|] == prefix
  }

  /** `key.replace(prefix, '')` on a key that starts with `prefix`: the first occurrence is the prefix itself. */
  function StripPrefix(prefix: string, key: string): (id: string)
    requires HasPrefix(prefix, key)
    ensures prefix + id == key
  {
    assert key == key[..|prefix|] + key[|prefix|..];
    key[|prefix|..]
  }

  /** Two identities never share a key, and a prefixed key gives back its identity. */
  lemma PrefixedInjective(prefix: string, a: string, b: string)
    ensures HasPrefix(prefix, prefix + a)
    ensures StripPrefix(prefix, prefix + a) == a
    ensures prefix + a == prefix + b <==> a == b
  {
    assert (prefix + a)[..|prefix|] == prefix;
    assert (prefix + a)[|prefix|..] == a;
    assert (prefix + b)[|prefix|..] == b;
  }
}
