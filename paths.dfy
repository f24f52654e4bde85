/**
 * File-name extraction for static attachments: the finisher splits a resource
 * path with `explode("/", ..)` and keeps `end(..)` of the pieces.
 */
module Paths {

  /** `explode("/", s)`: the pieces of `s` between slashes, in order; "" gives [""]. */
  function Explode(s: string): (r: seq<string>)
    ensures |r| >= 1
    ensures forall i :: 0 <= i < |r| ==> '/' !in r[i]
  {
    if s == [] then [""]
    else
      var rest := Explode(s[1..]);
      if s[0] == '/' then [""] + rest
      else [[s[0]] + rest[0]] + rest[1..]
  }

  /** `implode("/", parts)`: the pieces joined by single slashes. */
  function Implode(parts: seq<string>): string
    requires |parts| >= 1
  {
    if |parts| == 1 then parts[0] else parts[0] + "/" + Implode(parts[1..])
  }

  /** Joining the pieces again gives back the path: nothing is lost by the split. */
  lemma {:induction false} ImplodeExplode(s: string)
    ensures Implode(Explode(s)) == s
  {
    if s != [] {
      var rest := Explode(s[1..]);
      ImplodeExplode(s[1..]);
      if s[0] == '/' {
        assert Explode(s)[1..] == rest;
      } else {
        var r := Explode(s);
        assert r[0] == [s[0]] + rest[0] && r[1..] == rest[1..];
        if |rest| > 1 {
          assert Implode(rest) == rest[0] + "/" + Implode(rest[1..]);
        }
        assert s == [s[0]] + s[1..];
      }
    }
  }

  /** Splitting a join of slash-free pieces gives back the pieces. */
  lemma {:induction false} ExplodeImplode(parts: seq<string>)
    requires |parts| >= 1
    requires forall i :: 0 <= i < |parts| ==> '/' !in parts[i]
    ensures Explode(Implode(parts)) == parts
  {
    if |parts| == 1 {
      ExplodeSlashFree(parts[0]);
    } else {
      ExplodeImplode(parts[1..]);
      ExplodeAppend(parts[0], Implode(parts[1..]));
      assert parts == [parts[0]] + parts[1..];
    }
  }

  /** A slash-free string is a single piece. */
  lemma {:induction false} ExplodeSlashFree(s: string)
    requires '/' !in s
    ensures Explode(s) == [s]
  {
    if s != [] {
      assert '/' !in s[1..] by {
        forall i | 0 <= i < |s[1..]| ensures s[1..][i] != '/' { assert s[1..][i] == s[i + 1]; }
      }
      ExplodeSlashFree(s[1..]);
      assert s == [s[0]] + s[1..];
    }
  }

  /** A slash-free head joined by a slash to a tail splits into the head, then the tail's pieces. */
  lemma {:induction false} ExplodeAppend(head: string, tail: string)
    requires '/' !in head
    ensures Explode(head + "/" + tail) == [head] + Explode(tail)
  {
    if head == [] {
      assert head + "/" + tail == ['/'] + tail;
      assert (['/'] + tail)[1..] == tail;
    } else {
      var s := head + "/" + tail;
      assert s[0] == head[0];
      assert s[1..] == head[1..] + "/" + tail;
      assert '/' !in head[1..] by {
        forall i | 0 <= i < |head[1..]| ensures head[1..][i] != '/' { assert head[1..][i] == head[i + 1]; }
      }
      ExplodeAppend(head[1..], tail);
      assert [head[0]] + head[1..] == head;
    }
  }

  /**
   * `end(explode("/", path))`: the text after the last slash, or the whole path
   * when it has none.
   */
  function Basename(path: string): (r: string)
    ensures '/' !in r
    ensures |r| <= |path| && path[|path| - |r|..] == r
    ensures |r| < |path| ==> path[|path| - |r| - 1] == '/'
    ensures r == path <==> '/' !in path
  {
    var parts := Explode(path);
    LastPieceIsSuffix(path);
    parts[|parts| - 1]
  }

  lemma {:induction false} LastPieceIsSuffix(s: string)
    ensures var r := Explode(s); var last := r[|r| - 1];
      |last| <= |s| && s[|s| - |last|..] == last &&
      (|last| < |s| ==> s[|s| - |last| - 1] == '/') &&
      (last == s <==> '/' !in s)
  {
    if s != [] {
      LastPieceIsSuffix(s[1..]);
      var rest := Explode(s[1..]);
      var r := Explode(s);
      if s[0] == '/' {
        assert r[|r| - 1] == rest[|rest| - 1];
      } else if |rest| > 1 {
        assert r[|r| - 1] == rest[|rest| - 1];
        if '/' !in s[1..] {
          ExplodeSlashFree(s[1..]);
        }
        assert '/' in s[1..];
        assert exists i :: 1 <= i < |s| && s[i] == '/';
      } else {
        ImplodeExplode(s[1..]);
        assert r == [[s[0]] + s[1..]];
        assert s == [s[0]] + s[1..];
      }
    }
  }
}
