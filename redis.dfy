/**
 * The shared Redis instance the services use as a correlation cache, token
 * cache, replay marker store and voucher hand-off slot.  Values are strings;
 * `ttl` remembers the expiry (in seconds) the last write attached to a key.
 * Expiry itself is not simulated: a key stays readable until overwritten.
 */
module RedisStore {
  import opened Common

  /** Whether SET accepts the expiry: none, or a positive number of seconds. */
  predicate SetAccepted(ex: Option<int>)
  {
    ex.None? || ex.value > 0
  }

  /** The key/value contents after `SET key value [EX ex]`. */
  function StoreAfterSet(store: map<string, string>, key: string, value: string, ex: Option<int>): (s: map<string, string>)
    ensures SetAccepted(ex) ==> key in s && s[key] == value
    ensures forall k :: k != key ==> (k in s <==> k in store) && (k in s ==> s[k] == store[k])
    ensures !SetAccepted(ex) ==> s == store
  {
    if SetAccepted(ex) then store[key := value] else store
  }

  /** The expiries after `SET key value [EX ex]`. */
  function TtlAfterSet(ttl: map<string, int>, key: string, ex: Option<int>): (t: map<string, int>)
    ensures SetAccepted(ex) && ex.Some? ==> key in t && t[key] == ex.value
    ensures SetAccepted(ex) && ex.None? ==> key !in t
    ensures forall k :: k != key ==> (k in t <==> k in ttl) && (k in t ==> t[k] == ttl[k])
    ensures !SetAccepted(ex) ==> t == ttl
  {
    if !SetAccepted(ex) then ttl else if ex.Some? then ttl[key := ex.value] else ttl - {key}
  }

  /** One `SET key value [EX ex]` command. */
  datatype SetCommand = SetCommand(key: string, value: string, ex: Option<int>)

  /** The contents after a series of SET commands, issued in order. */
  function ApplySets(store: map<string, string>, cmds: seq<SetCommand>): map<string, string>
  {
    if |cmds| == 0 then store
    else
      var c := cmds[|cmds| - 1];
      StoreAfterSet(ApplySets(store, cmds[..|cmds| - 1]), c.key, c.value, c.ex)
  }

  /** The expiries after a series of SET commands, issued in order. */
  function ApplySetsTtl(ttl: map<string, int>, cmds: seq<SetCommand>): map<string, int>
  {
    if |cmds| == 0 then ttl
    else
      var c := cmds[|cmds| - 1];
      TtlAfterSet(ApplySetsTtl(ttl, cmds[..|cmds| - 1]), c.key, c.ex)
  }

  /** Issuing one more command extends the series. */
  lemma ApplySetsSnoc(store: map<string, string>, ttl: map<string, int>, cmds: seq<SetCommand>, c: SetCommand)
    ensures ApplySets(store, cmds + [c]) == StoreAfterSet(ApplySets(store, cmds), c.key, c.value, c.ex)
    ensures ApplySetsTtl(ttl, cmds + [c]) == TtlAfterSet(ApplySetsTtl(ttl, cmds), c.key, c.ex)
  {
    assert (cmds + [c])[..|cmds|] == cmds;
  }

  /** Two series issued one after the other are one series. */
  lemma {:induction false} ApplySetsConcat(store: map<string, string>, ttl: map<string, int>, a: seq<SetCommand>,
                                           b: seq<SetCommand>)
    ensures ApplySets(ApplySets(store, a), b) == ApplySets(store, a + b)
    ensures ApplySetsTtl(ApplySetsTtl(ttl, a), b) == ApplySetsTtl(ttl, a + b)
    decreases |b|
  {
    if |b| == 0 {
      assert a + b == a;
    } else {
      ApplySetsConcat(store, ttl, a, b[..|b| - 1]);
      assert (a + b)[..|a + b| - 1] == a + b[..|b| - 1];
    }
  }

  /** A key no command of the series names keeps its value and expiry. */
  lemma {:induction false} ApplySetsUntouched(store: map<string, string>, ttl: map<string, int>, cmds: seq<SetCommand>,
                                              key: string)
    requires forall i :: 0 <= i < |cmds| ==> cmds[i].key != key
    ensures (key in ApplySets(store, cmds) <==> key in store)
    ensures key in store ==> ApplySets(store, cmds)[key] == store[key]
    ensures (key in ApplySetsTtl(ttl, cmds) <==> key in ttl)
    ensures key in ttl ==> ApplySetsTtl(ttl, cmds)[key] == ttl[key]
  {
    if |cmds| > 0 {
      ApplySetsUntouched(store, ttl, cmds[..|cmds| - 1], key);
    }
  }

  /** The last accepted command on a key decides its value. */
  lemma {:induction false} ApplySetsLastWrite(store: map<string, string>, ttl: map<string, int>, cmds: seq<SetCommand>,
                                              k: nat)
    requires k < |cmds| && SetAccepted(cmds[k].ex)
    requires forall i :: k < i < |cmds| ==> cmds[i].key != cmds[k].key
    ensures cmds[k].key in ApplySets(store, cmds) && ApplySets(store, cmds)[cmds[k].key] == cmds[k].value
    decreases |cmds|
  {
    if k < |cmds| - 1 {
      ApplySetsLastWrite(store, ttl, cmds[..|cmds| - 1], k);
    }
  }

  class Redis {
    var store: map<string, string>
    var ttl: map<string, int>

    constructor()
      ensures store == map[] && ttl == map[]
    {
      store := map[];
      ttl := map[];
    }

    /** GET: the value under `key`, or nothing. */
    function Get(key: string): (r: Option<string>)
      reads this
      ensures r.Some? <==> key in store
      ensures r.Some? ==> r.value == store[key]
    {
      if key in store then Some(store[key]) else None
    }

    /**
     * SET key value [EX seconds].  Redis refuses an expiry that is not
     * positive ("invalid expire time") and then writes nothing; a SET
     * without EX clears any expiry the key had.
     */
    method Set(key: string, value: string, ex: Option<int>) returns (ok: bool)
      modifies this
      ensures ok <==> SetAccepted(ex)
      ensures store == StoreAfterSet(old(store), key, value, ex) && ttl == TtlAfterSet(old(ttl), key, ex)
      ensures ok ==> store == old(store)[key := value]
      ensures ok && ex.Some? ==> ttl == old(ttl)[key := ex.value]
      ensures ok && ex.None? ==> ttl == old(ttl) - {key}
      ensures !ok ==> store == old(store) && ttl == old(ttl)
    {
      if ex.Some? && ex.value <= 0 {
        ok := false;
        return;
      }
      ok := true;
      store := store[key := value];
      if ex.Some? {
        ttl := ttl[key := ex.value];
      } else {
        ttl := ttl - {key};
      }
    }

    /** Issues `cmd`. */
    method Issue(cmd: SetCommand)
      modifies this
      ensures store == StoreAfterSet(old(store), cmd.key, cmd.value, cmd.ex)
      ensures ttl == TtlAfterSet(old(ttl), cmd.key, cmd.ex)
    {
      var _ := Set(cmd.key, cmd.value, cmd.ex);
    }

    /** Issues the commands in order. */
    method IssueAll(cmds: seq<SetCommand>)
      modifies this
      ensures store == ApplySets(old(store), cmds) && ttl == ApplySetsTtl(old(ttl), cmds)
    {
      for i := 0 to |cmds|
        invariant store == ApplySets(old(store), cmds[..i]) && ttl == ApplySetsTtl(old(ttl), cmds[..i])
      {
        ApplySetsSnoc(old(store), old(ttl), cmds[..i], cmds[i]);
        assert cmds[..i + 1] == cmds[..i] + [cmds[i]];
        Issue(cmds[i]);
      }
      assert cmds[..|cmds|] == cmds;
    }
  }
}
