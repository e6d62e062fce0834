/**
 The per-user session as the controller sees it through the social_auth data
 handler: a map from key to a nullable string. Reading a key that was never
 written yields `NULL`, the same as reading one that was set to `NULL`.
 */
module Session {
  import opened Wrappers

  type Store = map<string, Option<string>>

  /** Key of the anti-forgery state saved before the redirect to the provider. */
  const StateKey := "oauth2state"
  /** Key of the access token saved during the callback. */
  const AccessTokenKey := "access_token"

  /** The keys the user manager is told to null when a login fails, in the order the controller gives them. */
  const KeysToNullify: seq<string> := [AccessTokenKey, StateKey]

  /** The two keys this plugin ever writes. */
  const TransientKeys: set<string> := set k | k in KeysToNullify

  /** The data handler's `get`: `NULL` for a key that is absent. */
  function Get(s: Store, key: string): (v: Option<string>)
    ensures key !in s ==> v == None
    ensures key in s ==> v == s[key]
  {
    if key in s then s[key] else None
  }

  /** The data handler's `set`: `key` now reads `v` and every other key reads as before. */
  function Set(s: Store, key: string, v: Option<string>): (r: Store)
    ensures Get(r, key) == v
    ensures AgreeOutside(s, r, {key})
  {
    s[key := v]
  }

  /** Every key outside `keys` reads the same in `a` and in `b`. */
  ghost predicate AgreeOutside(a: Store, b: Store, keys: set<string>) {
    forall k :: k !in keys ==> Get(a, k) == Get(b, k)
  }

  /** `nullifySessionKeys()`: each listed key is set to `NULL`, nothing else changes. */
  function NullifyKeys(s: Store, keys: seq<string>): (r: Store)
    ensures forall i :: 0 <= i < |keys| ==> Get(r, keys[i]) == None
    ensures forall k :: k !in keys ==> Get(r, k) == Get(s, k)
    decreases |keys|
  {
    if |keys| == 0 then s else NullifyKeys(Set(s, keys[0], None), keys[1..])
  }
}
