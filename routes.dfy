/** The in-app paths the pages navigate to, and the way the router reads a
    path back as its `/`-separated segments. */
module Routes {
  import opened Text

  /** The segments of a path, split at every `/` (`"/a/b".split("/")`). */
  function Segments(s: string): (r: seq<string>)
    ensures |r| >= 1
    ensures |r| == 1 <==> '/' !in s
  {
    if s == [] then [""]
    else
      var rest := Segments(s[1..]);
      if s[0] == '/' then [""] + rest
      else [[s[0]] + rest[0]] + rest[1..]
  }

  lemma {:induction false} SegmentsOfSegment(a: string)
    requires '/' !in a
    ensures Segments(a) == [a]
  {
    if a != [] {
      SegmentsOfSegment(a[1..]);
      assert a == [a[0]] + a[1..];
    }
  }

  lemma {:induction false} SegmentsOfJoin(a: string, b: string)
    requires '/' !in a
    ensures Segments(a + "/" + b) == [a] + Segments(b)
  {
    if a == [] {
      assert a + "/" + b == "/" + b;
      assert ("/" + b)[1..] == b;
    } else {
      var s := a + "/" + b;
      assert s[0] == a[0];
      assert s[1..] == a[1..] + "/" + b;
      SegmentsOfJoin(a[1..], b);
      assert [a[0]] + a[1..] == a;
    }
  }

  lemma SegmentsOfMeditationPath(categoria: string, id: string)
    requires '/' !in categoria && '/' !in id
    ensures Segments("/meditacoes/" + categoria + "/" + id) == ["", "meditacoes", categoria, id]
  {
    assert "/meditacoes/" + categoria + "/" + id == "" + "/" + ("meditacoes" + "/" + (categoria + "/" + id));
    SegmentsOfJoin("", "meditacoes" + "/" + (categoria + "/" + id));
    SegmentsOfJoin("meditacoes", categoria + "/" + id);
    SegmentsOfJoin(categoria, id);
    SegmentsOfSegment(id);
  }

  lemma SegmentsOfCategoryPath(slug: string)
    requires '/' !in slug
    ensures Segments("/meditacoes/" + slug) == ["", "meditacoes", slug]
  {
    assert "/meditacoes/" + slug == "" + "/" + ("meditacoes" + "/" + slug);
    SegmentsOfJoin("", "meditacoes" + "/" + slug);
    SegmentsOfJoin("meditacoes", slug);
    SegmentsOfSegment(slug);
  }

  /** The page of one meditation: `/meditacoes/${categoria}/${id}`. The
      router reads it back as its category and its id. */
  function MeditationLink(categoria: string, id: string): (link: string)
    ensures '/' !in categoria && '/' !in id ==> Segments(link) == ["", "meditacoes", categoria, id]
  {
    if '/' in categoria || '/' in id then "/meditacoes/" + categoria + "/" + id
    else
      SegmentsOfMeditationPath(categoria, id);
      "/meditacoes/" + categoria + "/" + id
  }

  /** A category page: `/meditacoes/${nome.toLowerCase()}`, which reads back
      as the lower-cased category name. */
  function CategoryRoute(nome: string): (route: string)
    ensures '/' !in nome ==> Segments(route) == ["", "meditacoes", ToLowerAscii(nome)]
  {
    var lower := ToLowerAscii(nome);
    if '/' in nome then "/meditacoes/" + lower
    else
      assert '/' !in lower by {
        forall k | 0 <= k < |lower| ensures lower[k] != '/' {
          assert nome[k] != '/';
        }
      }
      SegmentsOfCategoryPath(lower);
      "/meditacoes/" + lower
  }

  /** Distinct meditations have distinct links. */
  lemma MeditationLinkInjective(c1: string, i1: string, c2: string, i2: string)
    requires '/' !in c1 && '/' !in i1 && '/' !in c2 && '/' !in i2
    requires MeditationLink(c1, i1) == MeditationLink(c2, i2)
    ensures c1 == c2 && i1 == i2
  {
    assert Segments(MeditationLink(c1, i1)) == ["", "meditacoes", c1, i1];
  }
}
