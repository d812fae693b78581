/**
 * The pure parts of building and mashing track assets on the backend:
 * interleaving the words of two titles, searching a page of tracks for one
 * with a preview, and the index arithmetic of picking a random track.
 *
 * `split_whitespace` and `join` are Rust library calls; they are the
 * functions `Words` and `Join` here, with whitespace being Unicode's
 * White_Space property, as in Rust's `char::is_whitespace`.
 */
module TrackAssets {
  import opened Wrappers
  import opened Errors

  /** A track of a Deezer search page. */
  datatype Track = Track(title: string, fullTitle: string, previewUrl: string)

  /** Where a track asset came from; the dictionary entry is not modelled. */
  datatype TrackOrigin = TrackOrigin(totalTracks: nat, trackIndex: nat)

  datatype TrackAsset = TrackAsset(
    title: string,
    fullTitle: string,
    artist: string,
    previewUrl: string,
    albumTitle: string,
    coverUrl: string,
    origin: TrackOrigin)

  datatype MashedTrackAsset = MashedTrackAsset(title: string, artist: string, albumTitle: string)

  /** A track picked from a search, with its index among all the search's results. */
  datatype RandomTrack = RandomTrack(index: nat, track: Track)

  /** The number of tracks on one page of a Deezer search. */
  const PageLimit: nat := 25

  const NoPreviewMessage := "No track with preview"

  // ---------------------------------------------------------------------
  // Words
  // ---------------------------------------------------------------------

  /** Unicode White_Space. */
  predicate IsWhitespace(c: char) {
    || ('\U{0009}' <= c <= '\U{000D}') || c == '\U{0020}' || c == '\U{0085}' || c == '\U{00A0}'
    || c == '\U{1680}' || ('\U{2000}' <= c <= '\U{200A}') || c == '\U{2028}' || c == '\U{2029}'
    || c == '\U{202F}' || c == '\U{205F}' || c == '\U{3000}'
  }

  /** A word: non-empty, without whitespace. */
  predicate IsWord(w: string) {
    w != [] && forall i :: 0 <= i < |w| ==> !IsWhitespace(w[i])
  }

  /** The length of the run of non-whitespace characters that starts `s`. */
  function WordLength(s: string): (n: nat)
    ensures n <= |s|
    ensures s != [] && !IsWhitespace(s[0]) ==> n >= 1
  {
    if s == [] || IsWhitespace(s[0]) then 0 else 1 + WordLength(s[1..])
  }

  /** str::split_whitespace: the maximal runs of non-whitespace, in order. */
  function Words(s: string): seq<string>
    decreases |s|
  {
    if s == [] then []
    else if IsWhitespace(s[0]) then Words(s[1..])
    else var n := WordLength(s); [s[..n]] + Words(s[n..])
  }

  /** [T]::join(sep). */
  function Join(words: seq<string>, sep: string): string
    decreases |words|
  {
    if words == [] then ""
    else if |words| == 1 then words[0]
    else words[0] + sep + Join(words[1..], sep)
  }

  /** The first word of each, then the second of each, and so on; what is left
    * of the longer list follows in order. */
  function Interleave(a: seq<string>, b: seq<string>): seq<string>
    decreases |a| + |b|
  {
    if a == [] then b
    else if b == [] then a
    else [a[0], b[0]] + Interleave(a[1..], b[1..])
  }

  /** The string combine_alternating_words returns. */
  function Combined(string1: string, string2: string): string {
    Join(Interleave(Words(string1), Words(string2)), " ")
  }

  function Head(a: seq<string>): seq<string> {
    if a == [] then [] else [a[0]]
  }

  function Drop(a: seq<string>, i: nat): seq<string> {
    if i <= |a| then a[i..] else []
  }

  /** The words step `i` of the loop appends. */
  function Pair(a: seq<string>, b: seq<string>, i: nat): seq<string> {
    (if i < |a| then [a[i]] else []) + (if i < |b| then [b[i]] else [])
  }

  lemma InterleaveStep(a: seq<string>, b: seq<string>, i: nat)
    ensures Interleave(Drop(a, i), Drop(b, i)) == Pair(a, b, i) + Interleave(Drop(a, i + 1), Drop(b, i + 1))
  {
    var x, y := Drop(a, i), Drop(b, i);
    assert x != [] ==> x[1..] == Drop(a, i + 1) && x[0] == a[i];
    assert y != [] ==> y[1..] == Drop(b, i + 1) && y[0] == b[i];
    if x == [] {
      if y != [] { assert y == [y[0]] + y[1..]; }
    } else if y == [] {
      assert x == [x[0]] + x[1..];
    }
  }

  /** The words the first `i` steps of the loop push. */
  function Interleaved(a: seq<string>, b: seq<string>, i: nat): seq<string> {
    if i == 0 then [] else Interleaved(a, b, i - 1) + Pair(a, b, i - 1)
  }

  /** Once the loop has run as many steps as the longer list has words, it has
    * pushed exactly Interleave. */
  lemma {:induction false} InterleavedToEnd(a: seq<string>, b: seq<string>, i: nat)
    ensures Interleaved(a, b, i) + Interleave(Drop(a, i), Drop(b, i)) == Interleave(a, b)
  {
    if i == 0 {
      assert Drop(a, 0) == a && Drop(b, 0) == b;
    } else {
      InterleavedToEnd(a, b, i - 1);
      InterleaveStep(a, b, i - 1);
    }
  }

  lemma InterleavedIsInterleave(a: seq<string>, b: seq<string>, len: nat)
    requires len >= |a| && len >= |b|
    ensures Interleaved(a, b, len) == Interleave(a, b)
  {
    InterleavedToEnd(a, b, len);
    assert Drop(a, len) == [] && Drop(b, len) == [];
    assert Interleave([], []) == [];
  }

  /** combine_alternating_words: the interleaved words of both strings, joined
    * with single spaces. */
  method CombineAlternatingWords(string1: string, string2: string) returns (r: string)
    ensures r == Join(Interleave(Words(string1), Words(string2)), " ")
  {
    var words1 := Words(string1);
    var words2 := Words(string2);
    var result: seq<string> := [];
    var len := if |words1| > |words2| then |words1| else |words2|;
    for i := 0 to len
      invariant result == Interleaved(words1, words2, i)
    {
      if i < |words1| {
        result := result + [words1[i]];
      }
      if i < |words2| {
        result := result + [words2[i]];
      }
    }
    InterleavedIsInterleave(words1, words2, len);
    r := Join(result, " ");
  }

  /** mash_track_assets: title, artist and album title are combined field by
    * field; nothing else of the two assets is used. */
  method MashTrackAssets(track1: TrackAsset, track2: TrackAsset) returns (m: MashedTrackAsset)
    ensures m.title == Combined(track1.title, track2.title)
    ensures m.artist == Combined(track1.artist, track2.artist)
    ensures m.albumTitle == Combined(track1.albumTitle, track2.albumTitle)
  {
    var title := CombineAlternatingWords(track1.title, track2.title);
    var artist := CombineAlternatingWords(track1.artist, track2.artist);
    var albumTitle := CombineAlternatingWords(track1.albumTitle, track2.albumTitle);
    m := MashedTrackAsset(title, artist, albumTitle);
  }

  // ---------------------------------------------------------------------
  // Properties of the word interleaving
  // ---------------------------------------------------------------------

  lemma {:induction false} InterleaveLength(a: seq<string>, b: seq<string>)
    ensures |Interleave(a, b)| == |a| + |b|
    decreases |a| + |b|
  {
    if a != [] && b != [] {
      InterleaveLength(a[1..], b[1..]);
    }
  }

  /** Interleave alternates a[0], b[0], a[1], b[1], ... while both last, and
    * then the longer list's leftover follows in order. */
  lemma {:induction false} InterleaveAlternates(a: seq<string>, b: seq<string>)
    ensures var m := if |a| < |b| then |a| else |b|;
            && |Interleave(a, b)| == |a| + |b|
            && (forall k :: 0 <= k < m ==> Interleave(a, b)[2 * k] == a[k] && Interleave(a, b)[2 * k + 1] == b[k])
            && Interleave(a, b)[2 * m..] == a[m..] + b[m..]
    decreases |a| + |b|
  {
    InterleaveLength(a, b);
    if a != [] && b != [] {
      InterleaveAlternates(a[1..], b[1..]);
      var m := if |a| < |b| then |a| else |b|;
      var rest := Interleave(a[1..], b[1..]);
      assert Interleave(a, b) == [a[0], b[0]] + rest;
      forall k | 0 <= k < m
        ensures Interleave(a, b)[2 * k] == a[k] && Interleave(a, b)[2 * k + 1] == b[k]
      {
        if k > 0 {
          assert Interleave(a, b)[2 * k] == rest[2 * (k - 1)];
          assert Interleave(a, b)[2 * k + 1] == rest[2 * (k - 1) + 1];
        }
      }
      assert Interleave(a, b)[2 * m..] == rest[2 * (m - 1)..];
      assert a[m..] == a[1..][m - 1..];
      assert b[m..] == b[1..][m - 1..];
    }
  }

  /** When one side has no words, the result is the other side's words. */
  lemma InterleaveWithEmpty(a: seq<string>)
    ensures Interleave([], a) == a && Interleave(a, []) == a
  {
  }

  lemma {:induction false} LeadingWord(w: string, rest: string)
    requires IsWord(w)
    requires rest == [] || IsWhitespace(rest[0])
    ensures Words(w + rest) == [w] + Words(rest)
  {
    WordLengthOfWord(w, rest);
    assert (w + rest)[..|w|] == w;
    assert (w + rest)[|w|..] == rest;
  }

  lemma {:induction false} WordLengthOfWord(w: string, rest: string)
    requires forall i :: 0 <= i < |w| ==> !IsWhitespace(w[i])
    requires rest == [] || IsWhitespace(rest[0])
    ensures WordLength(w + rest) == |w|
    decreases |w|
  {
    if w != [] {
      assert (w + rest)[1..] == w[1..] + rest;
      WordLengthOfWord(w[1..], rest);
    } else {
      assert w + rest == rest;
    }
  }

  /** Splitting words joined with single spaces gives the words back. */
  lemma {:induction false} WordsOfJoin(ws: seq<string>)
    requires forall i :: 0 <= i < |ws| ==> IsWord(ws[i])
    ensures Words(Join(ws, " ")) == ws
    decreases |ws|
  {
    if |ws| == 1 {
      LeadingWord(ws[0], "");
      assert ws[0] + "" == ws[0];
    } else if |ws| > 1 {
      var tail := Join(ws[1..], " ");
      WordsOfJoin(ws[1..]);
      assert Join(ws, " ") == ws[0] + (" " + tail);
      LeadingWord(ws[0], " " + tail);
      assert (" " + tail)[1..] == tail;
      assert ws == [ws[0]] + ws[1..];
    }
  }

  /** Every piece split_whitespace yields is a word. */
  lemma {:induction false} WordsAreWords(s: string)
    ensures forall i :: 0 <= i < |Words(s)| ==> IsWord(Words(s)[i])
    decreases |s|
  {
    if s != [] {
      if IsWhitespace(s[0]) {
        WordsAreWords(s[1..]);
      } else {
        var n := WordLength(s);
        WordLengthRun(s);
        WordsAreWords(s[n..]);
      }
    }
  }

  lemma {:induction false} WordLengthRun(s: string)
    ensures forall i :: 0 <= i < WordLength(s) ==> !IsWhitespace(s[i])
    decreases |s|
  {
    if s != [] && !IsWhitespace(s[0]) {
      WordLengthRun(s[1..]);
    }
  }

  lemma InterleavedAreWords(a: seq<string>, b: seq<string>)
    requires forall i :: 0 <= i < |a| ==> IsWord(a[i])
    requires forall i :: 0 <= i < |b| ==> IsWord(b[i])
    ensures forall i :: 0 <= i < |Interleave(a, b)| ==> IsWord(Interleave(a, b)[i])
    decreases |a| + |b|
  {
    if a != [] && b != [] {
      InterleavedAreWords(a[1..], b[1..]);
    }
  }

  /** The combined string holds exactly the words of both inputs, interleaved:
    * its word count is the sum of theirs. */
  lemma CombinedWords(string1: string, string2: string)
    ensures Words(Combined(string1, string2)) == Interleave(Words(string1), Words(string2))
    ensures |Words(Combined(string1, string2))| == |Words(string1)| + |Words(string2)|
  {
    WordsAreWords(string1);
    WordsAreWords(string2);
    InterleavedAreWords(Words(string1), Words(string2));
    WordsOfJoin(Interleave(Words(string1), Words(string2)));
    InterleaveLength(Words(string1), Words(string2));
  }

  /** If one input has no words, the result is the other input's words joined
    * by single spaces. */
  lemma CombinedWithBlank(string1: string, string2: string)
    requires Words(string1) == []
    ensures Combined(string1, string2) == Join(Words(string2), " ")
    ensures Combined(string2, string1) == Join(Words(string2), " ")
  {
    InterleaveWithEmpty(Words(string2));
  }

  // ---------------------------------------------------------------------
  // Searching a page for a track with a preview
  // ---------------------------------------------------------------------

  /** The offset from `start` of the first track at or after `start` that has
    * a preview. */
  function FirstPreview(tracks: seq<Track>, start: nat): (r: Option<nat>)
    ensures r.Some? ==> start + r.value < |tracks|
    decreases |tracks| - start
  {
    if start >= |tracks| then None
    else if tracks[start].previewUrl != "" then Some(0)
    else match FirstPreview(tracks, start + 1)
      case None => None
      case Some(i) => Some(i + 1)
  }

  /** FirstPreview finds the first track with a preview, and finds none only
    * when no track at or after `start` has one. */
  lemma {:induction false} FirstPreviewIsFirst(tracks: seq<Track>, start: nat)
    ensures match FirstPreview(tracks, start)
      case Some(i) =>
        && start + i < |tracks| && tracks[start + i].previewUrl != ""
        && forall j :: start <= j < start + i ==> tracks[j].previewUrl == ""
      case None => forall j :: start <= j < |tracks| ==> tracks[j].previewUrl == ""
    decreases |tracks| - start
  {
    if start < |tracks| && tracks[start].previewUrl == "" {
      FirstPreviewIsFirst(tracks, start + 1);
    }
  }

  /** find_index_with_preview. */
  method FindIndexWithPreview(tracks: seq<Track>, startIndex: nat) returns (r: Result<nat, Error>)
    ensures startIndex >= |tracks| ==> r == Err(IndexError(startIndex, |tracks|))
    ensures startIndex < |tracks| ==>
              r == match FirstPreview(tracks, startIndex)
                     case Some(i) => Ok(i)
                     case None => Err(CriticalError(NoPreviewMessage))
    ensures r.Ok? ==> && startIndex + r.value < |tracks|
                      && tracks[startIndex + r.value].previewUrl != ""
                      && forall j :: startIndex <= j < startIndex + r.value ==> tracks[j].previewUrl == ""
  {
    if startIndex >= |tracks| {
      return Err(IndexError(startIndex, |tracks|));
    }
    var slice := tracks[startIndex..];
    for i := 0 to |slice|
      invariant forall j :: 0 <= j < i ==> slice[j].previewUrl == ""
      invariant FirstPreview(tracks, startIndex) == match FirstPreview(tracks, startIndex + i)
                                                     case Some(k) => Some(k + i)
                                                     case None => None
    {
      if slice[i].previewUrl != "" {
        return Ok(i);
      }
    }
    return Err(CriticalError(NoPreviewMessage));
  }

  // ---------------------------------------------------------------------
  // Picking a random track
  // ---------------------------------------------------------------------

  /** The index, among all results, of the first track of the page that holds
    * result `index`. */
  function PageBase(index: nat): nat {
    (index / PageLimit) * PageLimit
  }

  /** pick_random_track as written: `index` is the random result index and
    * `page` the page of results fetched for it.  The offset that
    * find_index_with_preview returns, which counts from the random track's
    * position on the page, is used as a position from the page's start. */
  method PickRandomTrackAsWritten(index: nat, page: seq<Track>) returns (r: Result<RandomTrack, Error>)
    ensures var start := index % PageLimit;
            r == if start >= |page| then Err(IndexError(start, |page|))
                 else match FirstPreview(page, start)
                   case None => Err(CriticalError(NoPreviewMessage))
                   case Some(i) => Ok(RandomTrack(index + i - start, page[i]))
    ensures r.Ok? ==> PageBase(index) <= r.value.index
                      && r.value.index - PageBase(index) < |page|
                      && r.value.track == page[r.value.index - PageBase(index)]
  {
    var startIndexOfPage := index % PageLimit;
    var found := FindIndexWithPreview(page, startIndexOfPage);
    if found.Err? {
      return Err(found.error);
    }
    var indexOnPage := found.value;
    // The guard `index_on_page >= len` never fires: the offset is below len - start.
    assert indexOnPage < |page|;
    var track := page[indexOnPage];
    var trueIndex := index + indexOnPage - startIndexOfPage;
    return Ok(RandomTrack(trueIndex, track));
  }

  /** The page of the counterexample: the random track (result 1, position 1 on
    * the first page) has a preview, the first track of the page has none. */
  const CounterexamplePage := [Track("a", "a", ""), Track("b", "b", "b.mp3")]

  /** As written, for result index 1 on that page, the track found is the
    * random track itself (offset 0 from position 1), but the track taken is
    * position 0 of the page, which has no preview. */
  lemma AsWrittenTakesTrackWithoutPreview()
    ensures FirstPreview(CounterexamplePage, 1 % PageLimit) == Some(0)
    ensures CounterexamplePage[0].previewUrl == ""
    ensures 1 + 0 - 1 % PageLimit == 0
  {
  }

  method AsWrittenCounterexample()
  {
    var r := PickRandomTrackAsWritten(1, CounterexamplePage);
    assert r == Ok(RandomTrack(0, Track("a", "a", "")));
    assert r.value.track.previewUrl == "";
  }

  /** pick_random_track with the offset counted from the random track's
    * position: the track taken is the first one with a preview at or after
    * result `index` on its page, and its index among all results is reported. */
  method PickRandomTrack(index: nat, page: seq<Track>) returns (r: Result<RandomTrack, Error>)
    ensures var start := index % PageLimit;
            r.Ok? <==> start < |page| && exists j :: start <= j < |page| && page[j].previewUrl != ""
    ensures r.Ok? ==> && index <= r.value.index
                      && r.value.index - PageBase(index) < |page|
                      && r.value.track == page[r.value.index - PageBase(index)]
                      && r.value.track.previewUrl != ""
                      && forall j :: index % PageLimit <= j < r.value.index - PageBase(index) ==> page[j].previewUrl == ""
  {
    var startIndexOfPage := index % PageLimit;
    FirstPreviewIsFirst(page, startIndexOfPage);
    var found := FindIndexWithPreview(page, startIndexOfPage);
    if found.Err? {
      return Err(found.error);
    }
    var indexOnPage := startIndexOfPage + found.value;
    assert indexOnPage < |page|;
    var track := page[indexOnPage];
    var trueIndex := index + found.value;
    assert PageBase(index) + startIndexOfPage == index;
    return Ok(RandomTrack(trueIndex, track));
  }
}
