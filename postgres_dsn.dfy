/**
 * `RepositoryConfig.DSN` of the two postgres backends (identical copies):
 * the connection string is the basic keyword list, then the optional
 * `sslmode` and `TimeZone` settings, then one `key=value` per extra
 * parameter, joined by single spaces. Go visits a map in an unspecified
 * order, so the order of the extra parameters is an input (`order`).
 */
module PostgresDsn {
  import opened Wrappers
  import opened Strings

  /** The fields of `RepositoryConfig` the connection string reads. */
  datatype Config = Config(
    host: string,
    port: int,
    username: string,
    password: string,
    database: string,
    sslMode: Option<string>,
    timezone: Option<string>,
    params: map<string, string>)

  /** `order` enumerates the keys of `params`, each exactly once. */
  predicate KeyOrder(params: map<string, string>, order: seq<string>) {
    && (forall k :: k in order ==> k in params)
    && (forall k :: k in params ==> k in order)
    && (forall i, j :: 0 <= i < j < |order| ==> order[i] != order[j])
  }

  /** `host=%s port=%d user=%s password=%s dbname=%s`. */
  function Basic(cfg: Config): string {
    "host=" + cfg.host + " port=" + IntToDecimal(cfg.port) + " user=" + cfg.username
      + " password=" + cfg.password + " dbname=" + cfg.database
  }

  /** A pointer setting is written only when it is non-nil and not empty. */
  predicate Set(o: Option<string>) {
    o.Some? && o.value != ""
  }

  function KeyValue(k: string, v: string): string {
    k + "=" + v
  }

  /** The basic part and the optional settings, in the order they are appended. */
  function FixedParts(cfg: Config): seq<string> {
    [Basic(cfg)]
      + (if Set(cfg.sslMode) then ["sslmode=" + cfg.sslMode.value] else [])
      + (if Set(cfg.timezone) then ["TimeZone=" + cfg.timezone.value] else [])
  }

  /** One `key=value` part per key, in the given order. */
  function ParamParts(params: map<string, string>, keys: seq<string>): seq<string>
    requires forall k :: k in keys ==> k in params
  {
    if |keys| == 0 then []
    else ParamParts(params, keys[..|keys| - 1]) + [KeyValue(keys[|keys| - 1], params[keys[|keys| - 1]])]
  }

  function DsnParts(cfg: Config, order: seq<string>): seq<string>
    requires KeyOrder(cfg.params, order)
  {
    FixedParts(cfg) + ParamParts(cfg.params, order)
  }

  /** `DSN`: collect the parts, then join them with spaces. */
  method Dsn(cfg: Config, order: seq<string>) returns (dsn: string)
    requires KeyOrder(cfg.params, order)
    ensures dsn == Join(DsnParts(cfg, order), " ")
  {
    var parts := [Basic(cfg)];
    if cfg.sslMode.Some? && cfg.sslMode.value != "" {
      parts := parts + ["sslmode=" + cfg.sslMode.value];
    }
    if cfg.timezone.Some? && cfg.timezone.value != "" {
      parts := parts + ["TimeZone=" + cfg.timezone.value];
    }
    var i := 0;
    while i < |order|
      invariant 0 <= i <= |order|
      invariant parts == FixedParts(cfg) + ParamParts(cfg.params, order[..i])
    {
      var k := order[i];
      assert order[..i + 1][..i] == order[..i];
      parts := parts + [KeyValue(k, cfg.params[k])];
      i := i + 1;
    }
    assert order[..i] == order;
    dsn := Join(parts, " ");
  }

  /** The parts for `keys` are exactly one `key=value` per key. */
  lemma {:induction false} ParamPartsContents(params: map<string, string>, keys: seq<string>)
    requires forall k :: k in keys ==> k in params
    ensures |ParamParts(params, keys)| == |keys|
    ensures forall i :: 0 <= i < |keys| ==> ParamParts(params, keys)[i] == KeyValue(keys[i], params[keys[i]])
    decreases |keys|
  {
    if |keys| > 0 {
      ParamPartsContents(params, keys[..|keys| - 1]);
    }
  }

  /** The basic part comes first; a set `sslmode`, then a set `TimeZone`, follow it. */
  lemma FixedPartsShape(cfg: Config)
    ensures FixedParts(cfg)[0] == Basic(cfg)
    ensures |FixedParts(cfg)| == 1 + (if Set(cfg.sslMode) then 1 else 0) + (if Set(cfg.timezone) then 1 else 0)
    ensures Set(cfg.sslMode) ==> FixedParts(cfg)[1] == "sslmode=" + cfg.sslMode.value
    ensures Set(cfg.timezone) ==> FixedParts(cfg)[|FixedParts(cfg)| - 1] == "TimeZone=" + cfg.timezone.value
  {
  }

  /** Every parameter contributes its `key=value` part. */
  lemma DsnPartsCoverParams(cfg: Config, order: seq<string>)
    requires KeyOrder(cfg.params, order)
    ensures forall k :: k in cfg.params ==> KeyValue(k, cfg.params[k]) in DsnParts(cfg, order)
  {
    var parts := DsnParts(cfg, order);
    var fixed := FixedParts(cfg);
    ParamPartsContents(cfg.params, order);
    forall k | k in cfg.params ensures KeyValue(k, cfg.params[k]) in parts {
      var i :| 0 <= i < |order| && order[i] == k;
      assert parts[|fixed| + i] == KeyValue(k, cfg.params[k]);
    }
  }

  /** After the fixed parts there is exactly one part per parameter, and each is a `key=value` of the map. */
  lemma DsnPartsOnlyParams(cfg: Config, order: seq<string>)
    requires KeyOrder(cfg.params, order)
    ensures |DsnParts(cfg, order)| == |FixedParts(cfg)| + |cfg.params|
    ensures forall i :: |FixedParts(cfg)| <= i < |DsnParts(cfg, order)| ==>
      exists k :: k in cfg.params && DsnParts(cfg, order)[i] == KeyValue(k, cfg.params[k])
  {
    var parts := DsnParts(cfg, order);
    var fixed := FixedParts(cfg);
    ParamPartsContents(cfg.params, order);
    DistinctKeysCount(cfg.params, order);
    forall i | |fixed| <= i < |parts|
      ensures exists k :: k in cfg.params && parts[i] == KeyValue(k, cfg.params[k])
    {
      var k := order[i - |fixed|];
      assert k in cfg.params && parts[i] == KeyValue(k, cfg.params[k]);
    }
  }

  /** The order of the map visit does not change which parts there are, nor how often each occurs. */
  lemma DsnOrderIndependent(cfg: Config, o1: seq<string>, o2: seq<string>)
    requires KeyOrder(cfg.params, o1) && KeyOrder(cfg.params, o2)
    ensures |DsnParts(cfg, o1)| == |DsnParts(cfg, o2)|
    ensures forall p :: p in DsnParts(cfg, o1) <==> p in DsnParts(cfg, o2)
    ensures multiset(DsnParts(cfg, o1)) == multiset(DsnParts(cfg, o2))
  {
    assert Distinct(o1) && Distinct(o2);
    DistinctKeysCount(cfg.params, o1);
    DistinctKeysCount(cfg.params, o2);
    ParamPartsPermutation(cfg.params, o1, o2);
    DsnPartsOnlyParams(cfg, o1);
    DsnPartsOnlyParams(cfg, o2);
    DsnPartsCoverParams(cfg, o1);
    DsnPartsCoverParams(cfg, o2);
    Included(cfg, o1, o2);
    Included(cfg, o2, o1);
  }

  lemma {:induction false} ParamPartsAppend(params: map<string, string>, xs: seq<string>, ys: seq<string>)
    requires forall k :: k in xs + ys ==> k in params
    ensures ParamParts(params, xs + ys) == ParamParts(params, xs) + ParamParts(params, ys)
    decreases |ys|
  {
    if |ys| == 0 {
      assert xs + ys == xs;
    } else {
      var init, last := ys[..|ys| - 1], ys[|ys| - 1];
      assert (xs + ys)[..|xs + ys| - 1] == xs + init;
      assert (xs + ys)[|xs + ys| - 1] == last;
      ParamPartsAppend(params, xs, init);
    }
  }

  predicate Distinct(s: seq<string>) {
    forall i, j :: 0 <= i < j < |s| ==> s[i] != s[j]
  }

  /** Dropping one entry of a duplicate-free sequence drops exactly that element. */
  lemma RemoveOne(s: seq<string>, j: nat)
    requires j < |s| && Distinct(s)
    ensures forall x :: x in s[..j] + s[j + 1..] <==> x in s && x != s[j]
    ensures Distinct(s[..j] + s[j + 1..])
  {
    var r := s[..j] + s[j + 1..];
    assert forall b :: 0 <= b < |r| ==> r[b] == if b < j then s[b] else s[b + 1];
    assert s == s[..j] + [s[j]] + s[j + 1..];
  }

  /** Taking the part of key `o[j]` out of the parts. */
  lemma ParamPartsSplit(params: map<string, string>, o: seq<string>, j: nat)
    requires forall k :: k in o ==> k in params
    requires j < |o|
    ensures multiset(ParamParts(params, o))
      == multiset(ParamParts(params, o[..j] + o[j + 1..])) + multiset{KeyValue(o[j], params[o[j]])}
  {
    var before, after := o[..j], o[j + 1..];
    assert o == (before + [o[j]]) + after;
    ParamPartsAppend(params, before + [o[j]], after);
    ParamPartsAppend(params, before, [o[j]]);
    ParamPartsAppend(params, before, after);
    assert [o[j]][..0] == [];
  }

  /** Two duplicate-free enumerations of the same keys give the same parts, possibly reordered. */
  lemma {:induction false} ParamPartsPermutation(params: map<string, string>, o1: seq<string>, o2: seq<string>)
    requires forall k :: k in o1 ==> k in params
    requires forall k :: k in o1 <==> k in o2
    requires Distinct(o1) && Distinct(o2) && |o1| == |o2|
    ensures multiset(ParamParts(params, o1)) == multiset(ParamParts(params, o2))
    decreases |o1|
  {
    if |o1| > 0 {
      var n := |o1| - 1;
      var k := o1[n];
      RemoveOne(o1, n);
      assert o1[..n] + o1[n + 1..] == o1[..n];
      assert k in o2;
      var j :| 0 <= j < |o2| && o2[j] == k;
      RemoveOne(o2, j);
      var init, rest := o1[..n], o2[..j] + o2[j + 1..];
      forall x
        ensures x in init <==> x in rest
      {
        assert x in init <==> x in o1[..n] + o1[n + 1..];
        assert x in o1[..n] + o1[n + 1..] <==> x in o1 && x != k;
        assert x in rest <==> x in o2 && x != k;
        assert x in o1 <==> x in o2;
      }
      ParamPartsPermutation(params, init, rest);
      ParamPartsSplit(params, o2, j);
    }
  }

  lemma Included(cfg: Config, o1: seq<string>, o2: seq<string>)
    requires KeyOrder(cfg.params, o1) && KeyOrder(cfg.params, o2)
    requires forall i :: |FixedParts(cfg)| <= i < |DsnParts(cfg, o1)| ==>
      exists k :: k in cfg.params && DsnParts(cfg, o1)[i] == KeyValue(k, cfg.params[k])
    requires forall k :: k in cfg.params ==> KeyValue(k, cfg.params[k]) in DsnParts(cfg, o2)
    ensures forall p :: p in DsnParts(cfg, o1) ==> p in DsnParts(cfg, o2)
  {
    var fixed := FixedParts(cfg);
    forall p | p in DsnParts(cfg, o1) ensures p in DsnParts(cfg, o2) {
      var i :| 0 <= i < |DsnParts(cfg, o1)| && DsnParts(cfg, o1)[i] == p;
      if i < |fixed| {
        assert p == DsnParts(cfg, o2)[i];
      }
    }
  }

  /** A duplicate-free enumeration of the keys has as many entries as the map has keys. */
  lemma DistinctKeysCount(params: map<string, string>, order: seq<string>)
    requires KeyOrder(params, order)
    ensures |order| == |params|
  {
    DistinctSetSize(order);
    assert (set k | k in order) == params.Keys;
  }

  lemma {:induction false} DistinctSetSize(s: seq<string>)
    requires forall i, j :: 0 <= i < j < |s| ==> s[i] != s[j]
    ensures |set k | k in s| == |s|
    decreases |s|
  {
    if |s| > 0 {
      var init := s[..|s| - 1];
      DistinctSetSize(init);
      assert (set k | k in s) == (set k | k in init) + {s[|s| - 1]};
      assert s[|s| - 1] !in init;
    }
  }

  /** The connection string opens with the basic part. */
  lemma DsnStartsWithBasic(cfg: Config, order: seq<string>)
    requires KeyOrder(cfg.params, order)
    ensures Basic(cfg) <= Join(DsnParts(cfg, order), " ")
  {
    JoinStartsWithFirst(DsnParts(cfg, order), " ");
  }

  /** Without settings and parameters the connection string is just the basic part. */
  lemma DsnBare(cfg: Config)
    requires !Set(cfg.sslMode) && !Set(cfg.timezone) && cfg.params == map[]
    ensures Join(DsnParts(cfg, []), " ") == Basic(cfg)
  {
  }
}
