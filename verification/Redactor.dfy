/** Credentials in shared storage, and the object that takes them out of text. */
module Redactor {
  import opened Redaction

  ghost predicate Blank(a: array<char>)
    reads a
  {
    forall k :: 0 <= k < a.Length ==> a[k] == '\0'
  }

  /** The storage every copy of one credential points at. An empty array stands for a dropped one. */
  class SecretData {
    var bytes: array<char>

    constructor (v: string)
      ensures Text() == v && fresh(bytes)
    {
      bytes := new char[|v|](i requires 0 <= i < |v| => v[i]);
      new;
      assert bytes[..] == v;
    }

    ghost function Text(): string
      reads this, bytes
    {
      bytes[..]
    }

    /** Overwrites the bytes in place before it lets go of them. */
    method Zero()
      modifies this, bytes
      ensures Text() == "" && fresh(bytes)
      ensures Blank(old(bytes))
    {
      var i := 0;
      while i < bytes.Length
        modifies bytes
        invariant 0 <= i <= bytes.Length
        invariant forall k :: 0 <= k < i ==> bytes[k] == '\0'
      {
        bytes[i] := '\0';
        i := i + 1;
      }
      bytes := new char[0];
    }
  }

  method NewSecret(v: string) returns (s: SecretData?)
    ensures s == null <==> v == ""
    ensures s != null ==> fresh(s) && fresh(s.bytes) && s.Text() == v
  {
    if v == "" {
      return null;
    }
    s := new SecretData(v);
  }

  lemma InsertKeeps(r: seq<string>, k: nat, v: string)
    requires LongestFirst(r) && k <= |r|
    requires forall j :: 0 <= j < k ==> |r[j]| >= |v|
    requires k < |r| ==> |r[k]| < |v|
    ensures LongestFirst(r[..k] + [v] + r[k..])
  {
    var front, back := r[..k], r[k..];
    forall i, j | 0 <= i < j < |back| ensures |back[i]| >= |back[j]| {
      assert back[i] == r[k + i] && back[j] == r[k + j];
    }
    forall j | 0 <= j < |back| ensures |back[j]| <= |v| {
      assert back[j] == r[k + j] && (j == 0 || |r[k]| >= |r[k + j]|);
    }
    Between(front, v, back);
  }

  lemma Between(front: seq<string>, v: string, back: seq<string>)
    requires LongestFirst(front) && LongestFirst(back)
    requires forall j :: 0 <= j < |front| ==> |front[j]| >= |v|
    requires forall j :: 0 <= j < |back| ==> |v| >= |back[j]|
    ensures LongestFirst(front + [v] + back)
  {
    var all, k := front + [v] + back, |front|;
    forall i, j | 0 <= i < j < |all| ensures |all[i]| >= |all[j]| {
      if j < k {
        assert all[i] == front[i] && all[j] == front[j];
      } else if i <= k {
        assert |all[i]| >= |v| >= |all[j]|;
      } else {
        assert all[i] == back[i - k - 1] && all[j] == back[j - k - 1];
      }
    }
  }

  lemma InsertHoldsAll(r: seq<string>, k: nat, v: string)
    requires k <= |r|
    ensures multiset(r[..k] + [v] + r[k..]) == multiset(r) + multiset{v}
  {
    assert r == r[..k] + r[k..];
  }

  /** Longest first; equal lengths in any order. */
  method SortLongestFirst(vals: seq<string>) returns (r: seq<string>)
    ensures LongestFirst(r) && multiset(r) == multiset(vals)
  {
    r := [];
    var i := 0;
    while i < |vals|
      invariant 0 <= i <= |vals|
      invariant LongestFirst(r) && multiset(r) == multiset(vals[..i])
    {
      var v, k := vals[i], 0;
      while k < |r| && |r[k]| >= |v|
        invariant 0 <= k <= |r|
        invariant forall j :: 0 <= j < k ==> |r[j]| >= |v|
      {
        k := k + 1;
      }
      assert vals[..i + 1] == vals[..i] + [v];
      InsertKeeps(r, k, v);
      InsertHoldsAll(r, k, v);
      r := r[..k] + [v] + r[k..];
      i := i + 1;
    }
    assert vals[..i] == vals;
  }

  lemma {:induction false} NothingToReplace(text: string, vals: seq<string>)
    requires "" !in vals && forall v :: v in vals ==> !Contains(text, v)
    ensures ReplaceEach(text, vals) == text
    decreases |vals|
  {
    if vals != [] {
      assert vals[0] in vals;
      ReplaceMarks(text, vals[0]);
      NothingToReplace(text, vals[1..]);
    }
  }

  /** The credentials a redactor can be trusted with. */
  predicate Redactable(v: string) {
    v != "" && !Touches(v)
  }

  /** What is left of the text, given the credentials read under the lock: no lock, no heap. */
  method ScrubWith(text: string, vals: seq<string>) returns (r: string)
    requires "" !in vals
    ensures exists order :: IsScrubbed(r, text, vals, order)
    ensures (forall v :: v in vals ==> !Contains(text, v)) ==> r == text
    ensures forall v :: v in vals && Redactable(v) ==> !Contains(r, v)
  {
    var order := SortLongestFirst(vals);
    assert forall v :: v in order <==> v in multiset(order);
    assert forall v :: v in vals <==> v in multiset(vals);
    r := text;
    var i := 0;
    while i < |order|
      invariant 0 <= i <= |order|
      invariant ReplaceEach(text, order) == ReplaceEach(r, order[i..])
    {
      ReplaceMarks(r, order[i]);
      if Contains(r, order[i]) {
        r := ReplaceAll(r, order[i]);
      }
      i := i + 1;
    }
    assert IsScrubbed(r, text, vals, order);
    WhatScrubbingDoes(text, vals, order);
  }

  /** Every value is replaced, the longest first. */
  ghost predicate IsScrubbed(r: string, text: string, vals: seq<string>, order: seq<string>) {
    multiset(order) == multiset(vals) && "" !in order && LongestFirst(order) && r == ReplaceEach(text, order)
  }

  lemma WhatScrubbingDoes(text: string, vals: seq<string>, order: seq<string>)
    requires "" !in order && forall v :: v in order <==> v in vals
    ensures (forall v :: v in vals ==> !Contains(text, v)) ==> ReplaceEach(text, order) == text
    ensures forall v :: v in vals && Redactable(v) ==> !Contains(ReplaceEach(text, order), v)
  {
    if forall v :: v in vals ==> !Contains(text, v) {
      NothingToReplace(text, order);
    }
    forall v | v in vals && Redactable(v) ensures !Contains(ReplaceEach(text, order), v) {
      if Contains(ReplaceEach(text, order), v) {
        EachCreatesNone(text, order, v);
      }
    }
  }

  lemma NothingScrubbed(text: string)
    ensures IsScrubbed(text, text, [], [])
  {
  }

  class Redactor {
    var items: seq<SecretData>
    var closed: bool

    constructor ()
      ensures Valid() && items == [] && !closed
    {
      items, closed := [], false;
    }

    ghost predicate Valid()
      reads this
    {
      closed ==> items == []
    }

    ghost function Storage(): set<object>
      reads this, items
    {
      (set it: SecretData | it in items :: it as object) + (set it: SecretData | it in items :: it.bytes as object)
    }

    /** The credentials held, as text: those wiped meanwhile are gone. */
    ghost predicate Knows(v: string)
      reads this, items, set it | it in items :: it.bytes
    {
      v != "" && exists it :: it in items && it.Text() == v
    }

    /** Registers s; once closed, wipes it instead. */
    method Add(s: SecretData?)
      requires Valid()
      modifies this, s, if s == null then {} else {s.bytes}
      ensures Valid() && closed == old(closed)
      ensures s == null || old(s.Text()) == "" ==> items == old(items)
      ensures s != null && old(s.Text()) != "" && !closed ==>
                items == old(items) + [s] && s.Text() == old(s.Text()) && Knows(s.Text())
      ensures s != null && closed ==>
                items == [] && s.Text() == ""
                && Blank(old(s.bytes))
    {
      if s == null || s.bytes.Length == 0 {
        return;
      }
      if closed {
        s.Zero();
        return;
      }
      items := items + [s];
    }

    /** The locked half of Scrub: what is known at that moment, or that nothing is any more. */
    method Snapshot() returns (gone: bool, vals: seq<string>)
      ensures gone == closed
      ensures !gone ==> "" !in vals && forall v :: v in vals <==> Knows(v)
    {
      gone, vals := closed, [];
      if closed {
        return;
      }
      var i := 0;
      while i < |items|
        invariant 0 <= i <= |items|
        invariant "" !in vals
        invariant forall v :: v in vals <==> v != "" && exists it :: it in items[..i] && it.Text() == v
      {
        var it := items[i];
        assert items[..i + 1] == items[..i] + [it];
        assert it.Text() == it.bytes[..];
        if it.bytes[..] != "" {
          vals := vals + [it.bytes[..]];
        }
        i := i + 1;
      }
      assert items[..i] == items;
    }

    /** Nothing known under the lock survives in the result; a closed redactor withholds the text. */
    method Scrub(text: string) returns (r: string)
      ensures text == "" ==> r == ""
      ensures text != "" && closed ==> r == "[redacted]"
      ensures text != "" && !closed ==>
                exists vals, order :: (forall v :: v in vals <==> Knows(v)) && IsScrubbed(r, text, vals, order)
      ensures !closed && (forall v :: Knows(v) ==> !Contains(text, v)) ==> r == text
      ensures !closed ==> forall v :: Knows(v) && Redactable(v) ==> !Contains(r, v)
    {
      hide IsScrubbed, Redactable, LongestFirst;
      if text == "" {
        return "";
      }
      var gone, vals := Snapshot();
      if gone {
        return MARKER;
      }
      if vals == [] {
        NothingScrubbed(text);
        return text;
      }
      r := ScrubWith(text, vals);
    }

    /** Closes, wipes what is held and forgets it. */
    method Zero()
      modifies this, Storage()
      ensures Valid() && closed && items == []
      ensures forall it :: it in old(items) ==>
                it.Text() == "" && Blank(old(it.bytes))
    {
      closed := true;
      ghost var held := items;
      var i := 0;
      while i < |items|
        invariant 0 <= i <= |items| && items == held && closed
        invariant forall k :: 0 <= k < i ==> held[k].bytes.Length == 0
        invariant forall it :: it in held && it !in held[..i] ==> it.bytes == old(it.bytes)
        invariant forall it :: it in held[..i] ==> fresh(it.bytes) && Blank(old(it.bytes))
      {
        var it := items[i];
        assert held[..i + 1] == held[..i] + [it];
        assert it in old(items) && it in old(Storage());
        assert old(it.bytes) in old(Storage());
        it.Zero();
        i := i + 1;
      }
      assert held[..i] == held;
      items := [];
    }
  }
}
