/**
 * Google-Drive share links: the file id is taken as
 * `url.split("/d/")[1].split("/view")[0]` by every service that downloads
 * from Drive.
 */
module Drive {
  import opened Wrappers
  import opened Text

  /** `url.split("/d/")[1]` on a URL without "/d/" raises IndexError. */
  datatype LinkError = IndexError

  const FILE_MARK := "/d/"
  const VIEW_MARK := "/view"

  /** The text that follows the first "/d/" of a URL that has one. */
  function AfterFileMark(url: string): string
    requires Contains(url, FILE_MARK)
  {
    url[IndexOf(url, FILE_MARK).value + |FILE_MARK|..]
  }

  /** A marker starts at index `j` of `s`. */
  predicate MarkAt(s: string, j: nat) {
    OccursAt(s, FILE_MARK, j) || OccursAt(s, VIEW_MARK, j)
  }

  /** Both markers begin with '/'. */
  lemma MarkStartsWithSlash(s: string, j: nat)
    requires MarkAt(s, j)
    ensures j < |s| && s[j] == '/'
  {
    if OccursAt(s, FILE_MARK, j) {
      CharOfOccurrence(s, FILE_MARK, j, 0);
    } else {
      CharOfOccurrence(s, VIEW_MARK, j, 0);
    }
  }

  /** "/view" cannot start strictly inside an occurrence of "/d/" that follows it. */
  lemma NoStraddle(s: string, p: nat, q: nat)
    requires OccursAt(s, VIEW_MARK, p) && OccursAt(s, FILE_MARK, q) && p < q
    ensures p + |VIEW_MARK| <= q
  {
    CharOfOccurrence(s, FILE_MARK, q, 0);
    if q < p + |VIEW_MARK| {
      CharOfOccurrence(s, VIEW_MARK, p, q - p);
      assert false;
    }
  }

  /**
   * The id the services download: the text after the first "/d/" up to the
   * first "/d/" or "/view" that follows it, or to the end.
   */
  function DriveFileId(url: string): (r: Result<string, LinkError>)
    ensures r.Failure? <==> !Contains(url, FILE_MARK)
    ensures r.Success? ==>
              var rest := AfterFileMark(url);
              && |r.value| <= |rest| && r.value == rest[..|r.value|]
              && (forall j: nat :: j < |r.value| ==> !MarkAt(rest, j))
              && (|r.value| == |rest| || MarkAt(rest, |r.value|))
  {
    var parts := Split(url, FILE_MARK);
    if |parts| < 2 then
      Failure(IndexError)
    else
      var id := Split(parts[1], VIEW_MARK)[0];
      IdFacts(url);
      Success(id)
  }

  /** The proof obligations of `DriveFileId`, discharged step by step. */
  lemma IdFacts(url: string)
    requires Contains(url, FILE_MARK)
    ensures
      var rest := AfterFileMark(url);
      var id := Split(Split(url, FILE_MARK)[1], VIEW_MARK)[0];
      && |id| <= |rest| && id == rest[..|id|]
      && (forall j: nat :: j < |id| ==> !MarkAt(rest, j))
      && (|id| == |rest| || MarkAt(rest, |id|))
  {
    var rest := AfterFileMark(url);
    SplitSecond(url, FILE_MARK);
    var piece := Split(url, FILE_MARK)[1];
    SplitHeadCut(rest, FILE_MARK);
    var cut := FirstCut(rest, FILE_MARK);
    assert piece == rest[..cut];
    SplitHeadCut(piece, VIEW_MARK);
    var vcut := FirstCut(piece, VIEW_MARK);
    var id := Split(piece, VIEW_MARK)[0];
    assert id == rest[..vcut];
    CutIsFirstMark(rest, cut, vcut);
  }

  /** Cutting at the first "/d/" and then at the first "/view" stops at the first marker. */
  lemma CutIsFirstMark(rest: string, cut: nat, vcut: nat)
    requires cut == FirstCut(rest, FILE_MARK)
    requires vcut == FirstCut(rest[..cut], VIEW_MARK)
    ensures forall j: nat :: j < vcut ==> !MarkAt(rest, j)
    ensures vcut == |rest| || MarkAt(rest, vcut)
  {
    var piece := rest[..cut];
    forall j: nat | j < vcut
      ensures !MarkAt(rest, j)
    {
      if OccursAt(rest, VIEW_MARK, j) {
        if j + |VIEW_MARK| <= cut {
          OccursInPrefixIff(rest, VIEW_MARK, cut, j);
          assert false;
        } else {
          NoStraddle(rest, j, cut);
          assert false;
        }
      }
    }
    if vcut < |piece| {
      OccursInPrefixIff(rest, VIEW_MARK, cut, vcut);
    }
  }

  /**
   * A share link whose id holds no '/' yields that id, whatever follows it
   * ("/view?usp=sharing", "/d/..." or nothing).
   */
  lemma DriveIdOfShareLink(p: string, id: string, tail: string)
    requires IndexOf(p + FILE_MARK, FILE_MARK) == Some(|p|)
    requires '/' !in id
    requires tail == "" || StartsWith(tail, VIEW_MARK) || StartsWith(tail, FILE_MARK)
    ensures DriveFileId(p + FILE_MARK + id + tail) == Success(id)
  {
    var url := p + FILE_MARK + id + tail;
    var head := p + FILE_MARK;
    assert url == head + (id + tail);
    assert url[..|head|] == head;
    OccursInPrefixIff(url, FILE_MARK, |head|, |p|);
    forall j: nat | j < |p|
      ensures !OccursAt(url, FILE_MARK, j)
    {
      OccursInPrefixIff(url, FILE_MARK, |head|, j);
    }
    assert IndexOf(url, FILE_MARK) == Some(|p|);
    var rest := AfterFileMark(url);
    assert rest == id + tail;
    assert |rest| == |id| || MarkAt(rest, |id|) by {
      if tail != "" {
        if StartsWith(tail, VIEW_MARK) {
          assert rest[|id|..|id| + 5] == tail[..5];
        } else {
          assert rest[|id|..|id| + 3] == tail[..3];
        }
      }
    }
    forall j: nat | j < |id|
      ensures !MarkAt(rest, j)
    {
      SlashAtMark(rest, j);
      assert rest[j] == id[j];
    }
    var x := DriveFileId(url).value;
    CutUnique(rest, |x|, |id|);
    assert x == rest[..|id|] == id;
  }

  /** Marker-free up to `n`, and ended by a marker or the end of `s`. */
  predicate CutAtFirstMark(s: string, n: nat) {
    && n <= |s|
    && (forall j: nat :: j < n ==> !MarkAt(s, j))
    && (n == |s| || MarkAt(s, n))
  }

  /** There is only one place to cut at the first marker. */
  lemma CutUnique(s: string, a: nat, b: nat)
    requires CutAtFirstMark(s, a) && CutAtFirstMark(s, b)
    ensures a == b
  {
  }

  /** `MarkStartsWithSlash` as an implication, for use inside a quantifier. */
  lemma SlashAtMark(s: string, j: nat)
    ensures MarkAt(s, j) ==> j < |s| && s[j] == '/'
  {
    if MarkAt(s, j) {
      MarkStartsWithSlash(s, j);
    }
  }
}
