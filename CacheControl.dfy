/** The per-request cache control: a growing set of cache-expiry keys, each
    either a wildcard key ending in "-*" or an exact key, and one endpoint
    cache key that the two expiry operations never touch. */
module CommonImpl {
  import opened Strings

  const KEY_SEPARATOR: string := "-"
  const WILDCARD_SUFFIX: string := "-*"

  /** The wildcard form of a joined key: it ends in "-*", gaining the suffix
      only when it does not end that way already. */
  function WildcardKey(joined: string): (k: string)
    ensures EndsWith(k, WILDCARD_SUFFIX)
    ensures k == joined || k == joined + WILDCARD_SUFFIX
    ensures EndsWith(joined, WILDCARD_SUFFIX) ==> k == joined
  {
    if EndsWith(joined, WILDCARD_SUFFIX) then joined else joined + WILDCARD_SUFFIX
  }

  /** Taking the wildcard form twice changes nothing: the suffix is never doubled. */
  lemma WildcardKeyIdempotent(joined: string)
    ensures WildcardKey(WildcardKey(joined)) == WildcardKey(joined)
  {
  }

  /** With at least one key, the endpoint key is the "-"-join of the module
      name and the keys. */
  lemma EndpointKeyIsJoin(moduleName: string, keys: seq<string>)
    requires |keys| >= 1
    ensures moduleName + KEY_SEPARATOR + Join(KEY_SEPARATOR, keys) == Join(KEY_SEPARATOR, [moduleName] + keys)
  {
    JoinCons(KEY_SEPARATOR, moduleName, keys);
  }

  class CacheControl {
    var expiryKeys: set<string>
    var cacheKey: string

    /** Which expiry keys were added as wildcards and which as exact keys. */
    ghost var wildcardKeys: set<string>
    ghost var exactKeys: set<string>

    /** Whether an endpoint key has been framed, and from which module and keys. */
    ghost var framed: bool
    ghost var framedModule: string
    ghost var framedKeys: seq<string>

    ghost predicate Valid()
      reads this
    {
      expiryKeys == wildcardKeys + exactKeys
      && (forall k :: k in wildcardKeys ==> EndsWith(k, WILDCARD_SUFFIX))
      && cacheKey == (if framed then framedModule + KEY_SEPARATOR + Join(KEY_SEPARATOR, framedKeys) else "")
    }

    constructor ()
      ensures Valid()
      ensures expiryKeys == {} && wildcardKeys == {} && exactKeys == {}
      ensures cacheKey == "" && !framed && !IsEndpointCached()
    {
      expiryKeys := {};
      cacheKey := "";
      wildcardKeys := {};
      exactKeys := {};
      framed := false;
      framedModule := "";
      framedKeys := [];
    }

    /** The expiry keys, read-only: each one is an exact key or ends in "-*". */
    function ExpiryKeys(): (keys: set<string>)
      reads this
      ensures Valid() ==> forall k :: k in keys ==> k in exactKeys || EndsWith(k, WILDCARD_SUFFIX)
      ensures Valid() ==> keys == wildcardKeys + exactKeys
    {
      expiryKeys
    }

    /** The endpoint cache key, read-only: empty until one is framed, then
        the last framed module, "-" and joined keys. */
    function EndpointCacheKey(): (key: string)
      reads this
      ensures Valid() && !framed ==> key == ""
      ensures Valid() && framed ==> key == framedModule + KEY_SEPARATOR + Join(KEY_SEPARATOR, framedKeys)
    {
      cacheKey
    }

    /** Whether an endpoint cache key has been framed. */
    predicate IsEndpointCached()
      reads this
      ensures IsEndpointCached() <==> |cacheKey| > 0
      ensures Valid() ==> (IsEndpointCached() <==> framed)
    {
      cacheKey != ""
    }

    /** Adds the "-"-joined keys as a wildcard key. */
    method AddKeyToExpire(keys: seq<string>)
      requires Valid()
      modifies this`expiryKeys, this`wildcardKeys
      ensures Valid()
      ensures expiryKeys == old(expiryKeys) + {WildcardKey(Join(KEY_SEPARATOR, keys))}
      ensures wildcardKeys == old(wildcardKeys) + {WildcardKey(Join(KEY_SEPARATOR, keys))}
      ensures old(expiryKeys) <= expiryKeys
      ensures exactKeys == old(exactKeys) && cacheKey == old(cacheKey)
    {
      var finalKey := Join(KEY_SEPARATOR, keys);
      if !EndsWith(finalKey, WILDCARD_SUFFIX) {
        finalKey := finalKey + WILDCARD_SUFFIX;
      }
      expiryKeys := expiryKeys + {finalKey};
      wildcardKeys := wildcardKeys + {finalKey};
    }

    /** Adds the "-"-joined keys exactly as they are. */
    method AddExactKeyToExpire(keys: seq<string>)
      requires Valid()
      modifies this`expiryKeys, this`exactKeys
      ensures Valid()
      ensures expiryKeys == old(expiryKeys) + {Join(KEY_SEPARATOR, keys)}
      ensures exactKeys == old(exactKeys) + {Join(KEY_SEPARATOR, keys)}
      ensures old(expiryKeys) <= expiryKeys
      ensures wildcardKeys == old(wildcardKeys) && cacheKey == old(cacheKey)
    {
      var finalKey := Join(KEY_SEPARATOR, keys);
      expiryKeys := expiryKeys + {finalKey};
      exactKeys := exactKeys + {finalKey};
    }

    /** Sets the endpoint cache key to the module name, "-" and the joined keys. */
    method FrameEndpointCacheKey(moduleName: string, keys: seq<string>)
      requires Valid()
      modifies this`cacheKey, this`framed, this`framedModule, this`framedKeys
      ensures Valid()
      ensures framed && framedModule == moduleName && framedKeys == keys
      ensures cacheKey == moduleName + KEY_SEPARATOR + Join(KEY_SEPARATOR, keys)
      ensures |keys| >= 1 ==> cacheKey == Join(KEY_SEPARATOR, [moduleName] + keys)
      ensures IsEndpointCached()
      ensures expiryKeys == old(expiryKeys)
    {
      cacheKey := moduleName + KEY_SEPARATOR + Join(KEY_SEPARATOR, keys);
      framed, framedModule, framedKeys := true, moduleName, keys;
      if |keys| >= 1 {
        EndpointKeyIsJoin(moduleName, keys);
      }
    }
  }
}
