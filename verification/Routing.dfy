/** Longest-prefix routing on segment boundaries. */
module Routing {
  import opened Options

  /** The test on bytes: the key is a prefix of the path and ends where a segment ends. */
  predicate Matches(key: string, path: string) {
    key <= path && (|path| == |key| || path[|key|] == '/')
  }

  /** The segments of a path: `strings.Split(path, "/")`. */
  function Segments(path: string): (segments: seq<string>)
    ensures |segments| > 0
  {
    if path == "" then [""]
    else
      var rest := Segments(path[1..]);
      if path[0] == '/' then [""] + rest else [[path[0]] + rest[0]] + rest[1..]
  }

  /** `key` is what the loop must return for `path`: the longest non-empty matching key. */
  ghost predicate Deepest<S>(routes: map<string, Option<S>>, path: string, key: string) {
    && key != ""
    && key in routes
    && Matches(key, path)
    && forall k :: k in routes && Matches(k, path) ==> |k| <= |key|
  }

  /** No configured key but possibly the empty one matches. */
  ghost predicate Unmatched<S>(routes: map<string, Option<S>>, path: string) {
    forall k :: k in routes && Matches(k, path) ==> k == ""
  }

  class Router<S(==)> {
    /** A key may be bound to no service, as Go's map may hold nil pointers. */
    var routes: map<string, Option<S>>

    constructor ()
      ensures routes == map[]
    {
      routes := map[];
    }

    method AddRoute(path: string, svc: Option<S>)
      modifies this
      ensures routes == old(routes)[path := svc]
    {
      routes := routes[path := svc];
    }

    /** The map is visited in any order. */
    method Route(path: string) returns (bestMatch: string, bestSvc: Option<S>)
      ensures Unmatched(routes, path) ==> bestMatch == "" && bestSvc == None
      ensures !Unmatched(routes, path) ==> Deepest(routes, path, bestMatch) && bestSvc == routes[bestMatch]
    {
      bestMatch, bestSvc := "", None;
      var todo := routes.Keys;
      while todo != {}
        invariant todo <= routes.Keys
        invariant bestMatch == "" ==> bestSvc == None
        invariant bestMatch != "" ==>
                    bestMatch in routes && Matches(bestMatch, path) && bestSvc == routes[bestMatch]
        invariant forall k :: k in routes.Keys - todo && Matches(k, path) ==> |k| <= |bestMatch|
        decreases |todo|
      {
        var key :| key in todo;
        todo := todo - {key};
        if key <= path {
          if |path| == |key| || path[|key|] == '/' {
            if |key| > |bestMatch| {
              bestMatch, bestSvc := key, routes[key];
            }
          }
        }
      }
      assert routes.Keys - todo == routes.Keys;
    }
  }

  /** The byte test is the test on segment lists, for all strings. */
  lemma {:induction false} MatchesBySegments(key: string, path: string)
    ensures Matches(key, path) <==> Segments(key) <= Segments(path)
  {
    if key == "" || path == "" {
      EmptySegments(key);
      EmptySegments(path);
    } else {
      MatchesTail(key, path);
      SegmentsTail(key, path);
      MatchesBySegments(key[1..], path[1..]);
    }
  }

  lemma EmptySegments(s: string)
    ensures Segments(s) == [""] <==> s == ""
    ensures Segments(s)[0] == "" <==> s == "" || s[0] == '/'
  {}

  lemma MatchesTail(key: string, path: string)
    requires key != "" && path != ""
    ensures Matches(key, path) <==> key[0] == path[0] && Matches(key[1..], path[1..])
  {
    if key[0] == path[0] && key[1..] <= path[1..] {
      assert key == [key[0]] + key[1..] && path == [path[0]] + path[1..];
    }
  }

  /** One more element in front does not matter. */
  lemma FrontPrefix(x: string, a: seq<string>, b: seq<string>)
    ensures [x] + a <= [x] + b <==> a <= b
  {
    assert ([x] + a)[1..] == a && ([x] + b)[1..] == b;
    if a <= b {
      assert b[..|a|] == a;
      assert ([x] + b)[..|a| + 1] == [x] + a;
    }
  }

  /** Nor does one more character in the first element. */
  lemma HeadPrefix(c: char, a: seq<string>, b: seq<string>)
    requires a != [] && b != []
    ensures [[c] + a[0]] + a[1..] <= [[c] + b[0]] + b[1..] <==> a <= b
  {
    var x, y := [c] + a[0], [c] + b[0];
    assert x[1..] == a[0] && y[1..] == b[0];
    assert a == [a[0]] + a[1..] && b == [b[0]] + b[1..];
    if a[0] == b[0] {
      FrontPrefix(x, a[1..], b[1..]);
      FrontPrefix(a[0], a[1..], b[1..]);
    } else {
      assert ([x] + a[1..])[0] == x && ([y] + b[1..])[0] == y;
    }
  }

  lemma SegmentsTail(key: string, path: string)
    requires key != "" && path != ""
    ensures Segments(key) <= Segments(path) <==> key[0] == path[0] && Segments(key[1..]) <= Segments(path[1..])
  {
    var ks, ps := Segments(key[1..]), Segments(path[1..]);
    if key[0] != path[0] {
      EmptySegments(key);
      EmptySegments(path);
      assert key[0] != '/' ==> Segments(key)[0][0] == key[0];
      assert path[0] != '/' ==> Segments(path)[0][0] == path[0];
    } else if key[0] == '/' {
      FrontPrefix("", ks, ps);
    } else {
      HeadPrefix(key[0], ks, ps);
    }
  }

  /** The keys that match one path form a chain: of two, one matches the other. */
  lemma MatchesChain(key: string, other: string, path: string)
    requires Matches(key, path) && Matches(other, path) && |key| <= |other|
    ensures Matches(key, other)
    ensures |key| == |other| ==> key == other
  {}

  /** Hence the deepest match is one key, whatever order the map is visited in, and it extends
      the segments of every other match. */
  lemma DeepestUnique<S>(routes: map<string, Option<S>>, path: string, key: string, other: string)
    requires Deepest(routes, path, key) && other in routes && Matches(other, path)
    ensures Segments(other) <= Segments(key)
    ensures Deepest(routes, path, other) ==> other == key
  {
    MatchesChain(other, key, path);
    MatchesBySegments(other, key);
  }

  /** The key "/" is no catch-all, although the routing guide presents it as one: it matches
      exactly the path "/" and the paths that begin with two slashes. */
  lemma RootRoute(path: string)
    ensures Matches("/", path) <==> path == "/" || (|path| > 1 && path[..2] == "//")
  {
    assert "/" <= path <==> |path| > 0 && path[0] == '/';
  }

  lemma RootIsNoCatchAll()
    ensures !Matches("/", "/about")
  {
    RootRoute("/about");
    assert "/about"[..2] == "/a";
  }
}
