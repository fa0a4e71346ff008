/** Query strings as the services build them: `key=value` pairs joined by '&'
    after a '?', with no percent-encoding of the interpolated values. The parser
    here is the reading a provider applies to such a URL. */
module Urls {
  import opened Text

  type Param = (string, string)

  function Pair(p: Param): string {
    p.0 + "=" + p.1
  }

  function Query(ps: seq<Param>): string {
    Join(seq(|ps|, i requires 0 <= i < |ps| => Pair(ps[i])), "&")
  }

  function Url(endpoint: string, ps: seq<Param>): string {
    endpoint + "?" + Query(ps)
  }

  lemma QueryCons(p: Param, ps: seq<Param>)
    requires |ps| >= 1
    ensures Query([p] + ps) == Pair(p) + "&" + Query(ps)
  {
    var all := [p] + ps;
    var pieces := seq(|all|, i requires 0 <= i < |all| => Pair(all[i]));
    assert pieces[1..] == seq(|ps|, i requires 0 <= i < |ps| => Pair(ps[i]));
  }

  lemma QueryOne(p: Param)
    ensures Query([p]) == Pair(p)
  {
  }

  lemma {:induction false} QuerySnoc(ps: seq<Param>, p: Param)
    requires |ps| >= 1
    ensures Query(ps + [p]) == Query(ps) + "&" + Pair(p)
  {
    if |ps| == 1 {
      QueryOne(p);
      QueryOne(ps[0]);
      QueryCons(ps[0], [p]);
      assert [ps[0]] + [p] == ps + [p];
    } else {
      assert ps + [p] == [ps[0]] + (ps[1..] + [p]);
      QueryCons(ps[0], ps[1..] + [p]);
      QuerySnoc(ps[1..], p);
      QueryCons(ps[0], ps[1..]);
      assert [ps[0]] + ps[1..] == ps;
    }
  }

  /** The URL grown one parameter at a time, left to right, the way a
      template literal reads. */
  function Build(endpoint: string, ps: seq<Param>): string
    requires |ps| >= 1
  {
    if |ps| == 1 then endpoint + "?" + Pair(ps[0])
    else Build(endpoint, ps[..|ps| - 1]) + "&" + Pair(ps[|ps| - 1])
  }

  lemma {:induction false} BuildIsUrl(endpoint: string, ps: seq<Param>)
    requires |ps| >= 1
    ensures Build(endpoint, ps) == Url(endpoint, ps)
  {
    if |ps| == 1 {
      QueryOne(ps[0]);
    } else {
      var init := ps[..|ps| - 1];
      BuildIsUrl(endpoint, init);
      QuerySnoc(init, ps[|ps| - 1]);
      assert init + [ps[|ps| - 1]] == ps;
    }
  }

  /** One more parameter appends "&key=value". */
  lemma BuildStep(endpoint: string, ps: seq<Param>, p: Param)
    requires |ps| >= 1
    ensures Build(endpoint, ps + [p]) == Build(endpoint, ps) + "&" + Pair(p)
  {
    assert (ps + [p])[..|ps|] == ps;
  }

  /** A key=value pair read at its first '='. */
  function ParsePair(s: string): Param {
    (UpTo(s, '='), After(s, '='))
  }

  function ParseQuery(q: string): seq<Param> {
    var pieces := Split(q, '&');
    seq(|pieces|, i requires 0 <= i < |pieces| => ParsePair(pieces[i]))
  }

  /** The endpoint before the first '?' and the parameters after it. */
  function ParseUrl(url: string): (string, seq<Param>) {
    (UpTo(url, '?'), ParseQuery(After(url, '?')))
  }

  /** A parameter list that survives the round trip: keys without '=' or '&',
      values without '&'. The source does not escape, so this is a condition
      on the configured and received values. */
  predicate Unambiguous(ps: seq<Param>) {
    forall i :: 0 <= i < |ps| ==> PlainParam(ps[i])
  }

  predicate PlainParam(p: Param) {
    '=' !in p.0 && '&' !in p.0 && '&' !in p.1
  }

  lemma {:induction false} ParseQueryOf(ps: seq<Param>)
    requires |ps| >= 1 && Unambiguous(ps)
    ensures ParseQuery(Query(ps)) == ps
  {
    var pieces := seq(|ps|, i requires 0 <= i < |ps| => Pair(ps[i]));
    forall i | 0 <= i < |ps|
      ensures '&' !in pieces[i]
      ensures ParsePair(pieces[i]) == ps[i]
    {
      assert pieces[i] == ps[i].0 + ['='] + ps[i].1;
      UpToAfterFirst(ps[i].0, '=', ps[i].1);
    }
    SplitJoin(pieces, '&');
  }

  /** Reading a built URL gives back its endpoint and its parameters, in order. */
  lemma ParseUrlOf(endpoint: string, ps: seq<Param>)
    requires '?' !in endpoint
    requires |ps| >= 1 && Unambiguous(ps)
    ensures ParseUrl(Url(endpoint, ps)) == (endpoint, ps)
  {
    assert Url(endpoint, ps) == endpoint + ['?'] + Query(ps);
    UpToAfterFirst(endpoint, '?', Query(ps));
    ParseQueryOf(ps);
  }

  /** Reading a URL grown parameter by parameter gives back its endpoint
      and its parameters, in order. */
  lemma ReadBuilt(endpoint: string, ps: seq<Param>)
    requires '?' !in endpoint
    requires |ps| >= 1 && Unambiguous(ps)
    ensures ParseUrl(Build(endpoint, ps)) == (endpoint, ps)
  {
    BuildIsUrl(endpoint, ps);
    ParseUrlOf(endpoint, ps);
  }
}
