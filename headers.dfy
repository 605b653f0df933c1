/**
  Header blocks of requests and responses.

  A block is a sequence of fields in the order they were added. An inbound
  request may carry the same name more than once; a block built by `Set`
  alone never does. Lookups return the first field with the name, `Set`
  overwrites the first field with the name or appends one, and `Del`
  removes every field with the name.
 */
module Headers {
  import opened Wrappers

  /** One header line: a name and its value. */
  datatype Field = Field(key: string, value: string)

  /** Some field of `fs` is named `k`. */
  predicate HasKey(fs: seq<Field>, k: string)
  {
    exists i :: 0 <= i < |fs| && fs[i].key == k
  }

  /** No two fields of `fs` share a name. */
  predicate Distinct(fs: seq<Field>)
  {
    forall i, j :: 0 <= i < j < |fs| ==> fs[i].key != fs[j].key
  }

  /** The value of the first field named `k`, if there is one. */
  function Lookup(fs: seq<Field>, k: string): (r: Option<string>)
    ensures r.None? <==> !HasKey(fs, k)
    ensures r.Some? ==> Field(k, r.value) in fs
  {
    if fs == [] then None
    else if fs[0].key == k then Some(fs[0].value)
    else
      assert forall i :: 1 <= i < |fs| ==> fs[i] == fs[1..][i - 1];
      Lookup(fs[1..], k)
  }

  /** `Lookup` finds the first field with the name: the one no earlier field shares its name with. */
  lemma {:induction false} LookupFirst(fs: seq<Field>, k: string, i: nat)
    requires i < |fs| && fs[i].key == k && !HasKey(fs[..i], k)
    ensures Lookup(fs, k) == Some(fs[i].value)
  {
    if i > 0 {
      assert fs[0] == fs[..i][0];
      var before := fs[..i];
      var tail := fs[1..];
      var pre := tail[..i - 1];
      forall j | 0 <= j < i - 1 ensures pre[j].key != k {
        assert pre[j] == before[j + 1];
      }
      LookupFirst(tail, k, i - 1);
    }
  }

  /** The value of the header named `k`, or the empty string when there is none. */
  function Peek(fs: seq<Field>, k: string): (v: string)
    ensures HasKey(fs, k) ==> Lookup(fs, k) == Some(v)
    ensures !HasKey(fs, k) ==> v == ""
  {
    match Lookup(fs, k)
    case None => ""
    case Some(v) => v
  }

  /** The value of the last field named `k`: the value that survives copying `fs` field by field with `Set`. */
  function LastValue(fs: seq<Field>, k: string): (r: Option<string>)
    ensures r.None? <==> !HasKey(fs, k)
    ensures r.Some? ==> Field(k, r.value) in fs
  {
    if fs == [] then None
    else if fs[|fs| - 1].key == k then Some(fs[|fs| - 1].value)
    else
      assert forall i :: 0 <= i < |fs| - 1 ==> fs[i] == fs[..|fs| - 1][i];
      LastValue(fs[..|fs| - 1], k)
  }

  /** `LastValue` finds the last field with the name: the one no later field shares its name with. */
  lemma {:induction false} LastValueLast(fs: seq<Field>, k: string, i: nat)
    requires i < |fs| && fs[i].key == k && !HasKey(fs[i + 1..], k)
    ensures LastValue(fs, k) == Some(fs[i].value)
  {
    var n := |fs| - 1;
    if i < n {
      assert fs[n] == fs[i + 1..][n - i - 1];
      var init := fs[..n];
      var after := fs[i + 1..];
      var post := init[i + 1..];
      forall j | 0 <= j < |post| ensures post[j].key != k {
        assert post[j] == after[j];
      }
      LastValueLast(init, k, i);
    }
  }

  /** `[f] + rest` repeats no name when `rest` does not and `f`'s name is not in `rest`. */
  lemma DistinctCons(f: Field, rest: seq<Field>)
    requires Distinct(rest)
    requires forall g :: g in rest ==> g.key != f.key
    ensures Distinct([f] + rest)
  {
    var s := [f] + rest;
    forall i, j | 0 <= i < j < |s| ensures s[i].key != s[j].key {
      assert s[j] == rest[j - 1];
      if i > 0 {
        assert s[i] == rest[i - 1];
      }
    }
  }

  /** Gives the field named `k` the value `v`: the first such field is overwritten, or a new one is appended. */
  function SetField(fs: seq<Field>, k: string, v: string): (r: seq<Field>)
    ensures Lookup(r, k) == Some(v)
    ensures forall j :: j != k ==> Lookup(r, j) == Lookup(fs, j)
    ensures forall f :: f in r ==> f in fs || f == Field(k, v)
  {
    if fs == [] then [Field(k, v)]
    else if fs[0].key == k then
      assert forall f :: f in fs[1..] ==> f in fs;
      [Field(k, v)] + fs[1..]
    else
      assert forall f :: f in fs[1..] ==> f in fs;
      [fs[0]] + SetField(fs[1..], k, v)
  }

  /** Setting a field keeps a block free of repeated names. */
  lemma {:induction false} SetFieldDistinct(fs: seq<Field>, k: string, v: string)
    requires Distinct(fs)
    ensures Distinct(SetField(fs, k, v))
  {
    if fs != [] {
      var rest := fs[1..];
      assert Distinct(rest);
      assert forall g :: g in rest ==> g.key != fs[0].key;
      if fs[0].key == k {
        DistinctCons(Field(k, v), rest);
      } else {
        SetFieldDistinct(rest, k, v);
        DistinctCons(fs[0], SetField(rest, k, v));
      }
    }
  }

  /** Removes every field named `k`. */
  function DelField(fs: seq<Field>, k: string): (r: seq<Field>)
    ensures !HasKey(r, k)
    ensures forall j :: j != k ==> Lookup(r, j) == Lookup(fs, j)
    ensures forall f :: f in r ==> f in fs
  {
    if fs == [] then []
    else
      assert forall f :: f in fs[1..] ==> f in fs;
      if fs[0].key == k then DelField(fs[1..], k)
      else [fs[0]] + DelField(fs[1..], k)
  }

  /** Deleting a name keeps a block free of repeated names. */
  lemma {:induction false} DelFieldDistinct(fs: seq<Field>, k: string)
    requires Distinct(fs)
    ensures Distinct(DelField(fs, k))
  {
    if fs != [] {
      var rest := fs[1..];
      assert Distinct(rest);
      DelFieldDistinct(rest, k);
      if fs[0].key != k {
        assert forall g :: g in rest ==> g.key != fs[0].key;
        DistinctCons(fs[0], DelField(rest, k));
      }
    }
  }

  /**
    Sets every field of `src` onto `fs`, in order. Last write wins: a name
    that `src` carries ends up with its last value in `src`; any other name
    keeps what `fs` had.
   */
  function SetAll(fs: seq<Field>, src: seq<Field>): (r: seq<Field>)
    ensures forall j :: Lookup(r, j) == if HasKey(src, j) then LastValue(src, j) else Lookup(fs, j)
  {
    if src == [] then fs
    else
      var init := src[..|src| - 1];
      var last := src[|src| - 1];
      assert forall j :: j != last.key ==> (HasKey(src, j) <==> HasKey(init, j)) by {
        forall j | j != last.key && HasKey(src, j) ensures HasKey(init, j) {
          var i :| 0 <= i < |src| && src[i].key == j;
          assert init[i] == src[i];
        }
        forall j | HasKey(init, j) ensures HasKey(src, j) {
          var i :| 0 <= i < |init| && init[i].key == j;
          assert src[i] == init[i];
        }
      }
      assert HasKey(src, last.key) by { assert src[|src| - 1].key == last.key; }
      SetField(SetAll(fs, init), last.key, last.value)
  }

  /** Setting a sequence of fields keeps a block free of repeated names. */
  lemma {:induction false} SetAllDistinct(fs: seq<Field>, src: seq<Field>)
    requires Distinct(fs)
    ensures Distinct(SetAll(fs, src))
  {
    if src != [] {
      var init := src[..|src| - 1];
      SetAllDistinct(fs, init);
      SetFieldDistinct(SetAll(fs, init), src[|src| - 1].key, src[|src| - 1].value);
    }
  }

  /** A mutable header block, as held by a request or a response. */
  class Header {
    var fields: seq<Field>

    /** A block built with `Set` and `Del` never repeats a name. */
    ghost predicate Valid()
      reads this
    {
      Distinct(fields)
    }

    constructor ()
      ensures Valid() && fields == []
    {
      fields := [];
    }

    method Set(k: string, v: string)
      requires Valid()
      modifies this
      ensures Valid() && fields == SetField(old(fields), k, v)
    {
      SetFieldDistinct(fields, k, v);
      fields := SetField(fields, k, v);
    }

    method Del(k: string)
      requires Valid()
      modifies this
      ensures Valid() && fields == DelField(old(fields), k)
    {
      DelFieldDistinct(fields, k);
      fields := DelField(fields, k);
    }

    /** Visits every field of `src` in order and sets it on this block. */
    method SetEach(src: seq<Field>)
      requires Valid()
      modifies this
      ensures Valid() && fields == SetAll(old(fields), src)
    {
      var i := 0;
      while i < |src|
        invariant 0 <= i <= |src|
        invariant Valid() && fields == SetAll(old(fields), src[..i])
      {
        assert src[..i + 1][..i] == src[..i];
        Set(src[i].key, src[i].value);
        i := i + 1;
      }
      assert src[..|src|] == src;
    }
  }
}
