/**
 * The Redis keys of a customer's transaction list and its head pointer, and
 * `RedisWalletCache`, the wallet catalog cache kept in two Redis hashes.
 */
module RedisOps {
  import opened Wrappers
  import opened Text

  /** `get_redis_list_name`. */
  function ListName(env: string, phone: string): string {
    env + phone + "TRANSACTIONS"
  }

  /** `get_redis_head_name`. */
  function HeadName(env: string, phone: string): string {
    env + phone + "HEAD"
  }

  /** Within one environment each customer has their own list and head keys, and
      no list key is ever a head key. */
  lemma KeyNamesDistinct(env: string, p: string, q: string)
    ensures ListName(env, p) == ListName(env, q) ==> p == q
    ensures HeadName(env, p) == HeadName(env, q) ==> p == q
    ensures ListName(env, p) != HeadName(env, q)
  {
    var lp, lq := ListName(env, p), ListName(env, q);
    if lp == lq {
      assert p == lp[|env|..|lp| - 12];
      assert q == lq[|env|..|lq| - 12];
    }
    var hp, hq := HeadName(env, p), HeadName(env, q);
    if hp == hq {
      assert p == hp[|env|..|hp| - 4];
      assert q == hq[|env|..|hq| - 4];
    }
    assert lp[|lp| - 1] == 'S';
    assert HeadName(env, q)[|HeadName(env, q)| - 1] == 'D';
  }

  /** The plain key-value store behind `conn`. */
  class KeyValueStore {
    var strings: map<string, string>

    constructor()
      ensures strings == map[]
    {
      strings := map[];
    }

    /** `update_redis_head(phone, id)`: points the customer's head key at `id`; a
        failing write is logged and swallowed, leaving the store as it was. */
    method UpdateRedisHead(env: string, phone: string, id: nat, writeFails: bool)
      modifies this
      ensures writeFails ==> strings == old(strings)
      ensures !writeFails ==> strings == old(strings)[HeadName(env, phone) := NatToDecimal(id)]
    {
      if writeFails {
        return;
      }
      strings := strings[HeadName(env, phone) := NatToDecimal(id)];
    }
  }

  /** A field of the cache hash: emptied (`""`) or holding a JSON dump of a value. */
  datatype CacheField<T> = Emptied | Dumped(value: T)

  const Telcos: string := "telcos"
  const Billers: string := "billers"
  const Vouchers: string := "vouchers"

  /** `get_value`: the stored value, `None` for a missing or emptied field. */
  function CachedValue<T>(cache: map<string, CacheField<T>>, kind: string): (r: Option<T>)
    ensures r.Some? <==> kind in cache && cache[kind].Dumped?
    ensures r.Some? ==> r.value == cache[kind].value
  {
    if kind in cache && cache[kind].Dumped? then Some(cache[kind].value) else None
  }

  /** `RedisWalletCache`: the `wallet_timestamps` hash (milliseconds since the
      epoch) and the `wallet_cache` hash. The telcos entry is never written. */
  class RedisWalletCache<T> {
    var timestamps: map<string, int>
    var cache: map<string, CacheField<T>>

    constructor()
      ensures timestamps == map[] && cache == map[]
    {
      timestamps := map[];
      cache := map[];
    }

    /** `reset`, at instant `nowMillis`: stamps all three catalogs with the same
        time and empties the billers and vouchers entries. */
    method Reset(nowMillis: int)
      modifies this
      ensures timestamps == old(timestamps)[Telcos := nowMillis][Billers := nowMillis][Vouchers := nowMillis]
      ensures cache == old(cache)[Billers := Emptied][Vouchers := Emptied]
      ensures Telcos in old(cache) <==> Telcos in cache
      ensures Telcos in cache ==> cache[Telcos] == old(cache)[Telcos]
      ensures CachedValue(cache, Billers).None? && CachedValue(cache, Vouchers).None?
    {
      var stamps := map[Telcos := nowMillis, Billers := nowMillis, Vouchers := nowMillis];
      timestamps := timestamps + stamps;
      cache := cache + map[Billers := Emptied, Vouchers := Emptied];
    }

    /** `set_value(kind, obj)`; a no-op for telcos. */
    method SetValue(kind: string, obj: T)
      modifies this
      ensures timestamps == old(timestamps)
      ensures kind == Telcos ==> cache == old(cache)
      ensures kind != Telcos ==> cache == old(cache)[kind := Dumped(obj)]
    {
      if kind == Telcos {
        return;
      }
      cache := cache[kind := Dumped(obj)];
    }

    /** `clear_value(kind)`; a no-op for telcos. */
    method ClearValue(kind: string)
      modifies this
      ensures timestamps == old(timestamps)
      ensures kind == Telcos ==> cache == old(cache)
      ensures kind != Telcos ==> cache == old(cache)[kind := Emptied]
    {
      if kind == Telcos {
        return;
      }
      cache := cache[kind := Emptied];
    }

    /** `update_timestamp(kind)` at instant `nowMillis`. */
    method UpdateTimestamp(kind: string, nowMillis: int)
      modifies this
      ensures timestamps == old(timestamps)[kind := nowMillis] && cache == old(cache)
    {
      timestamps := timestamps[kind := nowMillis];
    }

    /** `clear_and_update_timestamp(kind)`. */
    method ClearAndUpdateTimestamp(kind: string, nowMillis: int)
      modifies this
      ensures timestamps == old(timestamps)[kind := nowMillis]
      ensures kind == Telcos ==> cache == old(cache)
      ensures kind != Telcos ==> cache == old(cache)[kind := Emptied]
    {
      ClearValue(kind);
      UpdateTimestamp(kind, nowMillis);
    }

    /** `get_value(kind)`. */
    method GetValue(kind: string) returns (r: Option<T>)
      ensures r == CachedValue(cache, kind)
    {
      if kind in cache && cache[kind].Dumped? {
        return Some(cache[kind].value);
      }
      return None;
    }

    /** Storing a value and reading it back: the value itself for any catalog but
        telcos, whose entry is left as it was. */
    method SetThenGet(kind: string, obj: T) returns (r: Option<T>)
      modifies this
      ensures kind != Telcos ==> r == Some(obj)
      ensures kind == Telcos ==> r == CachedValue(old(cache), Telcos)
    {
      SetValue(kind, obj);
      r := GetValue(kind);
    }

    /** Emptying a catalog and reading it back gives nothing, except for telcos. */
    method ClearThenGet(kind: string) returns (r: Option<T>)
      modifies this
      ensures kind != Telcos ==> r.None?
      ensures kind == Telcos ==> r == CachedValue(old(cache), Telcos)
    {
      ClearValue(kind);
      r := GetValue(kind);
    }
  }
}
