/**
 * How `/listgroups` cuts its lines into messages: lines are added to a buffer one by one, and
 * the buffer is sent as soon as its newline-joined text is longer than 3500 characters; what
 * is left at the end is sent as a last page.
 */
module Paging {
  import opened PyStr

  const PageLimit: nat := 3500

  /** The length of a page's text. */
  function PageLength(page: seq<string>): nat {
    |Join(page, "\n")|
  }

  /** The pages still to come, given the remaining lines and the buffer so far. */
  function PagesFrom(rest: seq<string>, buf: seq<string>): seq<seq<string>>
    decreases |rest|
  {
    if rest == [] then (if buf == [] then [] else [buf])
    else
      var b := buf + [rest[0]];
      if PageLength(b) > PageLimit then [b] + PagesFrom(rest[1..], [])
      else PagesFrom(rest[1..], b)
  }

  /** The pages of a list of lines. */
  function Pages(lines: seq<string>): seq<seq<string>> {
    PagesFrom(lines, [])
  }

  /** All pages one after the other. */
  function Flatten(pages: seq<seq<string>>): seq<string> {
    if pages == [] then [] else pages[0] + Flatten(pages[1..])
  }

  /** Paging loses no line, repeats none and keeps their order. */
  lemma {:induction false} PagesFromFlatten(rest: seq<string>, buf: seq<string>)
    ensures Flatten(PagesFrom(rest, buf)) == buf + rest
    decreases |rest|
  {
    if rest == [] {
      if buf != [] {
        assert Flatten([buf]) == buf + Flatten([]);
      }
    } else {
      var b := buf + [rest[0]];
      assert buf + rest == b + rest[1..];
      if PageLength(b) > PageLimit {
        PagesFromFlatten(rest[1..], []);
        assert ([b] + PagesFrom(rest[1..], []))[1..] == PagesFrom(rest[1..], []);
      } else {
        PagesFromFlatten(rest[1..], b);
      }
    }
  }

  /** No page is empty. */
  lemma {:induction false} PagesFromNonEmpty(rest: seq<string>, buf: seq<string>)
    ensures forall p :: p in PagesFrom(rest, buf) ==> p != []
    decreases |rest|
  {
    if rest != [] {
      var b := buf + [rest[0]];
      if PageLength(b) > PageLimit {
        PagesFromNonEmpty(rest[1..], []);
      } else {
        PagesFromNonEmpty(rest[1..], b);
      }
    }
  }

  /** Every page but the last is over the limit. */
  predicate Overfull(ps: seq<seq<string>>) {
    forall i :: 0 <= i < |ps| - 1 ==> PageLength(ps[i]) > PageLimit
  }

  /** Every page was within the limit before its last line was added. */
  predicate Fitted(ps: seq<seq<string>>) {
    forall i :: 0 <= i < |ps| && ps[i] != [] ==> PageLength(ps[i][..|ps[i]| - 1]) <= PageLimit
  }

  lemma {:induction false} PagesFromShape(rest: seq<string>, buf: seq<string>)
    requires PageLength(buf) <= PageLimit
    ensures Overfull(PagesFrom(rest, buf)) && Fitted(PagesFrom(rest, buf))
    decreases |rest|
  {
    if rest == [] {
      if buf != [] { JoinDropLast(buf, "\n"); }
    } else {
      var b := buf + [rest[0]];
      assert b[..|b| - 1] == buf;
      if PageLength(b) > PageLimit {
        PagesFromShape(rest[1..], []);
        var tail := PagesFrom(rest[1..], []);
        var ps := [b] + tail;
        assert PagesFrom(rest, buf) == ps;
        assert forall i :: 1 <= i < |ps| ==> ps[i] == tail[i - 1];
      } else {
        PagesFromShape(rest[1..], b);
      }
    }
  }

  /** Dropping the last piece never makes a joined text longer. */
  lemma {:induction false} JoinDropLast(ss: seq<string>, sep: string)
    requires ss != []
    ensures |Join(ss[..|ss| - 1], sep)| <= |Join(ss, sep)|
  {
    if |ss| > 2 {
      JoinDropLast(ss[1..], sep);
      assert ss[..|ss| - 1][1..] == ss[1..][..|ss[1..]| - 1];
    } else if |ss| == 2 {
      assert ss[..1] == [ss[0]];
    }
  }

  /** The pages of `lines`: together exactly the lines, none empty, cut where the limit was passed. */
  lemma PagesSpec(lines: seq<string>)
    ensures Flatten(Pages(lines)) == lines
    ensures forall p :: p in Pages(lines) ==> p != []
    ensures Overfull(Pages(lines))
    ensures forall p :: p in Pages(lines) ==> PageLength(p[..|p| - 1]) <= PageLimit
    ensures lines == [] <==> Pages(lines) == []
  {
    PagesFromFlatten(lines, []);
    PagesFromNonEmpty(lines, []);
    assert Join([], "\n") == [];
    PagesFromShape(lines, []);
  }

  /** A short list fits on one page. */
  lemma OnePage(line: string)
    requires |line| <= PageLimit
    ensures Pages([line]) == [[line]]
  {
    assert [] + [line] == [line] && [line][1..] == [];
    assert PageLength([line]) == |line|;
    assert PagesFrom([], [line]) == [[line]];
  }

  /** A line of the flattened pages is a line of one of the pages. */
  lemma {:induction false} FlattenMember(ps: seq<seq<string>>, x: string)
    requires x in Flatten(ps)
    ensures exists i :: 0 <= i < |ps| && x in ps[i]
  {
    if x !in ps[0] {
      FlattenMember(ps[1..], x);
      var i :| 0 <= i < |ps[1..]| && x in ps[1..][i];
      assert x in ps[i + 1];
    }
  }
}
