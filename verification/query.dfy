/** Query strings as the rewriter writes them: `key=value` pairs joined
    with `&`, with no percent-encoding. Reading one back is the partner of
    writing one. */
module Query {
  import opened Optionals
  import opened Strings

  datatype Param = Param(key: string, value: string)

  /** A pair that survives a write/read round trip: the key holds neither
      separator, the value holds no `&`. */
  predicate Plain(p: Param)
  {
    '&' !in p.key && '=' !in p.key && '&' !in p.value
  }

  function RenderParam(p: Param): string
  {
    p.key + "=" + p.value
  }

  /** The query string of a non-empty list of pairs, in list order. */
  function Render(ps: seq<Param>): string
    requires |ps| >= 1
  {
    JoinWith(seq(|ps|, i requires 0 <= i < |ps| => RenderParam(ps[i])), '&')
  }

  /** Writing a list of two or more pairs writes the first pair, an `&`,
      and the rest. */
  lemma RenderCons(ps: seq<Param>)
    requires |ps| >= 2
    ensures Render(ps) == RenderParam(ps[0]) + "&" + Render(ps[1..])
  {
    var fields := seq(|ps|, i requires 0 <= i < |ps| => RenderParam(ps[i]));
    var rest := seq(|ps| - 1, i requires 0 <= i < |ps| - 1 => RenderParam(ps[1..][i]));
    assert fields[1..] == rest;
  }

  /** Writing two non-empty lists one after the other writes each, joined
      by `&`. */
  lemma {:induction false} RenderAppend(a: seq<Param>, b: seq<Param>)
    requires |a| >= 1 && |b| >= 1
    ensures Render(a + b) == Render(a) + "&" + Render(b)
    decreases |a|
  {
    RenderCons(a + b);
    assert (a + b)[1..] == a[1..] + b;
    if |a| > 1 {
      RenderAppend(a[1..], b);
      RenderCons(a);
    } else {
      assert a[1..] + b == b;
    }
  }

  /** Writing a list with one more pair at its end writes an `&` and that
      pair after the list. */
  lemma RenderSnoc(ps: seq<Param>, p: Param)
    requires |ps| >= 1
    ensures Render(ps + [p]) == Render(ps) + "&" + RenderParam(p)
  {
    RenderAppend(ps, [p]);
  }

  /** One `key=value` field; a field with no `=` is a key with an empty
      value. */
  function ParseParam(s: string): Param
  {
    var i := IndexOf(s, '=');
    if i == |s| then Param(s, "") else Param(s[..i], s[i + 1..])
  }

  /** The pairs of a query string, in order. */
  function Parse(s: string): (ps: seq<Param>)
    ensures |ps| >= 1
  {
    var fields := SplitOn(s, '&');
    seq(|fields|, i requires 0 <= i < |fields| => ParseParam(fields[i]))
  }

  lemma ParseRenderParam(p: Param)
    requires Plain(p)
    ensures ParseParam(RenderParam(p)) == p
  {
    var s := RenderParam(p);
    assert s == p.key + ['='] + p.value;
    IndexOfAfter(p.key, '=', p.value);
    assert s[..|p.key|] == p.key;
    assert s[|p.key| + 1..] == p.value;
  }

  /** Reading a written query string gives back the pairs it was written
      from, in the same order. */
  lemma ParseRenderRoundTrip(ps: seq<Param>)
    requires |ps| >= 1
    requires forall i :: 0 <= i < |ps| ==> Plain(ps[i])
    ensures Parse(Render(ps)) == ps
  {
    var fields := seq(|ps|, i requires 0 <= i < |ps| => RenderParam(ps[i]));
    forall i | 0 <= i < |fields|
      ensures '&' !in fields[i]
    {
      assert fields[i] == ps[i].key + ['='] + ps[i].value;
    }
    SplitJoinRoundTrip(fields, '&');
    forall i | 0 <= i < |ps|
      ensures ParseParam(fields[i]) == ps[i]
    {
      ParseRenderParam(ps[i]);
    }
  }

  /** The value of the first pair named `key`, if any. */
  function Lookup(ps: seq<Param>, key: string): (v: Option<string>)
    ensures v.Some? <==> exists i :: 0 <= i < |ps| && ps[i].key == key
    decreases |ps|
  {
    if |ps| == 0 then None
    else if ps[0].key == key then Some(ps[0].value)
    else
      var v := Lookup(ps[1..], key);
      assert forall i :: 1 <= i < |ps| ==> ps[i] == ps[1..][i - 1];
      v
  }

  /** Looking a key up in `a + b` finds it in `a` first, else in `b`. */
  lemma {:induction false} LookupAppend(a: seq<Param>, b: seq<Param>, key: string)
    ensures Lookup(a + b, key) == if Lookup(a, key).Some? then Lookup(a, key) else Lookup(b, key)
    decreases |a|
  {
    if |a| > 0 {
      assert (a + b)[1..] == a[1..] + b;
      LookupAppend(a[1..], b, key);
    } else {
      assert a + b == b;
    }
  }
}
