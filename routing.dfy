/**
 * How a request reaches its handler. The routes of a router are tried in
 * the order they were declared and the first whose method and path
 * template both match wins. A path parameter matches any non-empty
 * segment; the segment is converted to the parameter's type (here always a
 * UUID) only once the route has been chosen, and a segment that does not
 * convert is answered with 422 without any later route being tried. When
 * no route matches fully but some route matches the path under another
 * method, the answer is 405; otherwise 404.
 *
 * Paths are written relative to the router's prefix, as their list of
 * segments: "/staff/{staff_id}/availability" is
 * `[Literal("staff"), UuidParam, Literal("availability")]`.
 */
module Routing {
  import opened Common

  datatype Verb = GET | POST | PUT | DELETE

  datatype Segment = Literal(text: string) | UuidParam

  datatype Route<H> = Route(verb: Verb, template: seq<Segment>, handler: H)

  /** What the router does with a request. */
  datatype Dispatch<H> =
    | NotFound
    | MethodNotAllowed
    | Invalid(handler: H)   // the chosen route's parameter does not convert: 422
    | Handled(handler: H)

  /** The text with its hyphens removed. */
  function WithoutHyphens(s: string): (r: string)
    ensures forall k :: 0 <= k < |s| && s[k] != '-' ==> s[k] in r
    ensures forall k :: 0 <= k < |r| ==> r[k] != '-'
  {
    if s == [] then []
    else
      assert s == [s[0]] + s[1..];
      (if s[0] == '-' then [] else [s[0]]) + WithoutHyphens(s[1..])
  }

  /** The texts `uuid.UUID(text)` accepts here: 32 hexadecimal digits once the hyphens are removed. */
  predicate UuidText(s: string)
  {
    var h := WithoutHyphens(s);
    |h| == 32 && forall k :: 0 <= k < |h| ==> HexDigit(h[k])
  }

  /** A text holding a character that is neither a hexadecimal digit nor a hyphen is no UUID. */
  lemma NotUuid(s: string, i: nat)
    requires i < |s| && s[i] != '-' && !HexDigit(s[i])
    ensures !UuidText(s)
  {
    var h := WithoutHyphens(s);
    assert s[i] in h;
  }

  /** A UUID text is never empty, so it fills any parameter segment. */
  lemma UuidTextNotEmpty(s: string)
    requires UuidText(s)
    ensures s != ""
  {
  }

  predicate SegmentMatches(t: Segment, s: string)
  {
    match t
    case Literal(text) => s == text
    case UuidParam => s != ""
  }

  /** The template matches the path, whatever the method. */
  predicate PathMatches(template: seq<Segment>, path: seq<string>)
  {
    |template| == |path| && forall k :: 0 <= k < |path| ==> SegmentMatches(template[k], path[k])
  }

  /** The route matches the request fully: method and path. */
  predicate Matches<H>(r: Route<H>, verb: Verb, path: seq<string>)
  {
    r.verb == verb && PathMatches(r.template, path)
  }

  function MatchesRequest<H>(verb: Verb, path: seq<string>): Route<H> -> bool
  {
    (r: Route<H>) => Matches(r, verb, path)
  }

  /** Every parameter segment of the path converts to a UUID. */
  predicate Converts(template: seq<Segment>, path: seq<string>)
  {
    forall k :: 0 <= k < |template| && k < |path| && template[k].UuidParam? ==> UuidText(path[k])
  }

  /** What the route chosen for the path makes of it. */
  function Chosen<H>(r: Route<H>, path: seq<string>): Dispatch<H>
  {
    if Converts(r.template, path) then Handled(r.handler) else Invalid(r.handler)
  }

  /** The dispatch of one request through a router. */
  function Resolve<H>(routes: seq<Route<H>>, verb: Verb, path: seq<string>): (r: Dispatch<H>)
    ensures (r.NotFound? || r.MethodNotAllowed?) <==> forall k :: 0 <= k < |routes| ==> !Matches(routes[k], verb, path)
    ensures r.MethodNotAllowed? ==> exists k :: 0 <= k < |routes| && PathMatches(routes[k].template, path)
    ensures r.NotFound? ==> forall k :: 0 <= k < |routes| ==> !PathMatches(routes[k].template, path)
    ensures (r.Invalid? || r.Handled?) ==>
      exists k :: 0 <= k < |routes| && Matches(routes[k], verb, path) && r == Chosen(routes[k], path)
                  && forall j :: 0 <= j < k ==> !Matches(routes[j], verb, path)
  {
    var i := FirstMatch(routes, MatchesRequest(verb, path));
    if i.Some? then Chosen(routes[i.value], path)
    else if exists k :: 0 <= k < |routes| && PathMatches(routes[k].template, path) then MethodNotAllowed
    else NotFound
  }

  /** The first route matching the request is the one that answers it. */
  lemma FirstMatchingRouteAnswers<H>(routes: seq<Route<H>>, j: nat, verb: Verb, path: seq<string>)
    requires j < |routes| && Matches(routes[j], verb, path)
    requires forall k :: 0 <= k < j ==> !Matches(routes[k], verb, path)
    ensures Resolve(routes, verb, path) == Chosen(routes[j], path)
  {
    assert MatchesRequest(verb, path)(routes[j]);
  }

  /** The routes with the neighbours at `i` and `i + 1` declared the other way round. */
  function Swap<H>(routes: seq<Route<H>>, i: nat): (r: seq<Route<H>>)
    requires i + 1 < |routes|
    ensures |r| == |routes| && r[i] == routes[i + 1] && r[i + 1] == routes[i]
    ensures forall k :: 0 <= k < |routes| && k != i && k != i + 1 ==> r[k] == routes[k]
  {
    routes[i := routes[i + 1]][i + 1 := routes[i]]
  }

  /**
   * Declaring two neighbouring routes the other way round changes nothing
   * for a request that does not match both of them.
   */
  lemma SwapKeepsDispatch<H>(routes: seq<Route<H>>, i: nat, verb: Verb, path: seq<string>)
    requires i + 1 < |routes|
    requires !(Matches(routes[i], verb, path) && Matches(routes[i + 1], verb, path))
    ensures Resolve(Swap(routes, i), verb, path) == Resolve(routes, verb, path)
  {
    var f := FirstMatch(routes, MatchesRequest(verb, path));
    if f.Some? {
      assert MatchesRequest(verb, path)(routes[f.value]);
      forall k | 0 <= k < f.value
        ensures !Matches(routes[k], verb, path)
      {
        assert !MatchesRequest(verb, path)(routes[k]);
      }
      SwapKeepsAnswer(routes, i, f.value, verb, path);
    } else {
      forall k | 0 <= k < |routes|
        ensures !Matches(routes[k], verb, path)
      {
        assert !MatchesRequest(verb, path)(routes[k]);
      }
      SwapKeepsMiss(routes, i, verb, path);
    }
  }

  /** The route answering a request still answers it after a swap of neighbours it does not both match. */
  lemma SwapKeepsAnswer<H>(routes: seq<Route<H>>, i: nat, j: nat, verb: Verb, path: seq<string>)
    requires i + 1 < |routes|
    requires !(Matches(routes[i], verb, path) && Matches(routes[i + 1], verb, path))
    requires j < |routes| && Matches(routes[j], verb, path)
    requires forall k :: 0 <= k < j ==> !Matches(routes[k], verb, path)
    ensures Resolve(Swap(routes, i), verb, path) == Resolve(routes, verb, path)
  {
    var swapped := Swap(routes, i);
    var j' := if j == i then i + 1 else if j == i + 1 then i else j;
    assert swapped[j'] == routes[j];
    forall k | 0 <= k < j'
      ensures !Matches(swapped[k], verb, path)
    {
      if k == i {
        assert swapped[k] == routes[i + 1];
      } else if k == i + 1 {
        assert swapped[k] == routes[i];
      } else {
        assert swapped[k] == routes[k];
      }
    }
    FirstMatchingRouteAnswers(swapped, j', verb, path);
    FirstMatchingRouteAnswers(routes, j, verb, path);
  }

  /** A request no route matches fully gets the same answer after a swap of neighbours. */
  lemma SwapKeepsMiss<H>(routes: seq<Route<H>>, i: nat, verb: Verb, path: seq<string>)
    requires i + 1 < |routes|
    requires forall k :: 0 <= k < |routes| ==> !Matches(routes[k], verb, path)
    ensures Resolve(Swap(routes, i), verb, path) == Resolve(routes, verb, path)
  {
    var swapped := Swap(routes, i);
    forall k | 0 <= k < |swapped|
      ensures !Matches(swapped[k], verb, path)
    {
      var k' := if k == i then i + 1 else if k == i + 1 then i else k;
      assert routes[k'] == swapped[k];
    }
    if exists k :: 0 <= k < |routes| && PathMatches(routes[k].template, path) {
      var k :| 0 <= k < |routes| && PathMatches(routes[k].template, path);
      var k' := if k == i then i + 1 else if k == i + 1 then i else k;
      assert swapped[k'] == routes[k];
    }
    if exists k :: 0 <= k < |swapped| && PathMatches(swapped[k].template, path) {
      var k :| 0 <= k < |swapped| && PathMatches(swapped[k].template, path);
      var k' := if k == i then i + 1 else if k == i + 1 then i else k;
      assert routes[k'] == swapped[k];
    }
  }

  /** The routes with the one declared at `i` moved up to position `j`, the others keeping their order. */
  function MoveBack<H>(routes: seq<Route<H>>, i: nat, j: nat): (r: seq<Route<H>>)
    requires j <= i < |routes|
    ensures |r| == |routes| && r[j] == routes[i]
    ensures forall k :: 0 <= k < j ==> r[k] == routes[k]
    ensures forall k :: j < k <= i ==> r[k] == routes[k - 1]
    ensures forall k :: i < k < |routes| ==> r[k] == routes[k]
  {
    routes[..j] + [routes[i]] + routes[j..i] + routes[i + 1..]
  }

  /**
   * Declaring a route earlier changes nothing for a request that it and
   * none of the routes it overtakes both match.
   */
  lemma {:induction false} MoveKeepsDispatch<H>(routes: seq<Route<H>>, i: nat, j: nat, verb: Verb, path: seq<string>)
    requires j <= i < |routes|
    requires forall k :: j <= k < i ==> !(Matches(routes[k], verb, path) && Matches(routes[i], verb, path))
    ensures Resolve(MoveBack(routes, i, j), verb, path) == Resolve(routes, verb, path)
    decreases i - j
  {
    if j < i {
      var swapped := Swap(routes, i - 1);
      SwapKeepsDispatch(routes, i - 1, verb, path);
      MoveKeepsDispatch(swapped, i - 1, j, verb, path);
      MoveBackBySwap(routes, i, j);
    } else {
      assert MoveBack(routes, i, j) == routes;
    }
  }

  /** Moving a route back by one more place is a swap with its neighbour followed by the shorter move. */
  lemma MoveBackBySwap<H>(routes: seq<Route<H>>, i: nat, j: nat)
    requires j < i < |routes|
    ensures MoveBack(Swap(routes, i - 1), i - 1, j) == MoveBack(routes, i, j)
  {
    var a := MoveBack(Swap(routes, i - 1), i - 1, j);
    var b := MoveBack(routes, i, j);
    assert forall k :: 0 <= k < |a| ==> a[k] == b[k];
  }
}
