/**
 * The metadata a video is uploaded with: which files in a folder are videos,
 * the name of the sidecar text file that goes with each, how that file's text is
 * split into a title and keywords, and how the keywords become the tag list.
 */
module Metadata {
  import opened Wrappers
  import opened Text

  /** Title and keywords read from a video's sidecar text file. */
  datatype Sidecar = Sidecar(title: string, keywords: string)

  /**
   * The sidecar text, once read: the whole text is stripped; when it holds a `#`
   * the title is the stripped text before the first `#` and the keywords the
   * stripped text after it, and otherwise the whole text is the title.
   */
  function ParseSidecar(text: string): (r: Sidecar)
    ensures '#' !in r.title
    ensures IsStripped(r.title) && IsStripped(r.keywords)
    ensures '#' !in text ==> r == Sidecar(Strip(text), "")
  {
    var content := Strip(text);
    match FirstIndex(content, '#')
    case None => Sidecar(content, "")
    case Some(k) => Sidecar(Strip(content[..k]), Strip(content[k + 1..]))
  }

  /** Once the stripped text is known to split at its first `#`, the parse strips the two sides. */
  lemma ParseAtHash(text: string, a: string, b: string)
    requires Strip(text) == a + "#" + b && '#' !in a
    ensures ParseSidecar(text) == Sidecar(Strip(a), Strip(b))
  {
    var content := Strip(text);
    FirstIndexAfter(a, '#', b);
    assert FirstIndex(content, '#') == Some(|a|);
    assert content[..|a|] == a;
    assert content[|a| + 1..] == b;
  }

  /** Whitespace around a title: the title keeps its trailing gap unless it is empty. */
  lemma LeadSplit(pad: string, title: string, gap: string)
    requires AllSpace(pad) && AllSpace(gap)
    ensures var kept := if title == [] then [] else title + gap;
      var lead := if title == [] then pad + gap else pad;
      pad + title + gap == lead + kept && AllSpace(lead)
  {
    if title == [] {
      assert pad + title + gap == (pad + gap) + [];
      AllSpaceConcat(pad, gap);
    } else {
      assert pad + title + gap == pad + (title + gap);
    }
  }

  /** Whitespace around keywords: the keywords keep their leading gap unless they are empty. */
  lemma TrailSplit(gap: string, keywords: string, pad: string)
    requires AllSpace(gap) && AllSpace(pad)
    ensures var kept := if keywords == [] then [] else gap + keywords;
      var trail := if keywords == [] then gap + pad else pad;
      gap + keywords + pad == kept + trail && AllSpace(trail)
  {
    if keywords == [] {
      assert gap + keywords + pad == [] + (gap + pad);
      AllSpaceConcat(gap, pad);
    }
  }

  lemma SpaceHasNoHash(s: string)
    requires AllSpace(s)
    ensures '#' !in s
  {
    forall k | 0 <= k < |s|
      ensures s[k] != '#'
    {
      assert IsSpace(s[k]);
    }
  }

  /** A `#` between a part that starts with non-whitespace and one that ends with it leaves nothing to strip. */
  lemma HashJoinStripped(a: string, b: string)
    requires a == [] || !IsSpace(a[0])
    requires b == [] || !IsSpace(b[|b| - 1])
    ensures IsStripped(a + "#" + b)
  {
    var s := a + "#" + b;
    assert s[0] == if a == [] then '#' else a[0];
    assert s[|s| - 1] == if b == [] then '#' else b[|b| - 1];
  }

  lemma Regroup(lead: string, x: string, y: string, trail: string)
    ensures (lead + x) + "#" + (y + trail) == lead + (x + "#" + y) + trail
  {
  }

  /** A sidecar written as title, `#`, keywords, with any whitespace around the parts, parses back to them. */
  lemma ParseComposed(pad: string, title: string, gap: string, gap2: string, keywords: string, pad2: string)
    requires AllSpace(pad) && AllSpace(gap) && AllSpace(gap2) && AllSpace(pad2)
    requires IsStripped(title) && IsStripped(keywords) && '#' !in title
    ensures ParseSidecar((pad + title + gap) + "#" + (gap2 + keywords + pad2)) == Sidecar(title, keywords)
  {
    var text := (pad + title + gap) + "#" + (gap2 + keywords + pad2);
    var a := if title == [] then [] else title + gap;
    var b := if keywords == [] then [] else gap2 + keywords;
    var lead := if title == [] then pad + gap else pad;
    var trail := if keywords == [] then gap2 + pad2 else pad2;
    LeadSplit(pad, title, gap);
    TrailSplit(gap2, keywords, pad2);
    Regroup(lead, a, b, trail);
    if title != [] {
      assert a[0] == title[0];
      SpaceHasNoHash(gap);
    }
    if keywords != [] {
      assert b[|b| - 1] == keywords[|keywords| - 1];
    }
    HashJoinStripped(a, b);
    StripPadded(lead, a + "#" + b, trail);
    ParseAtHash(text, a, b);
    if title != [] {
      StripTrailing(title, gap);
    }
    if keywords != [] {
      StripLeading(gap2, keywords);
    }
  }

  /** A sidecar with no `#` is all title, whatever whitespace surrounds it. */
  lemma ParseTitleOnly(pad: string, title: string, pad2: string)
    requires AllSpace(pad) && AllSpace(pad2)
    requires IsStripped(title) && '#' !in title
    ensures ParseSidecar(pad + title + pad2) == Sidecar(title, "")
  {
    StripPadded(pad, title, pad2);
  }

  /**
   * `initialize_upload`'s tags: `None` for empty keywords, otherwise the keywords
   * split on `,`, which join back to the keywords.
   */
  function Tags(keywords: string): (r: Option<seq<string>>)
    ensures r.None? <==> keywords == []
    ensures r.Some? ==> Join(r.value, ',') == keywords
    ensures r.Some? ==> forall k :: 0 <= k < |r.value| ==> ',' !in r.value[k]
  {
    if keywords == [] then None
    else JoinSplit(keywords, ','); Some(Split(keywords, ','))
  }

  /** A tag list with no `,` inside a tag survives being joined into keywords and split again. */
  lemma TagsOfJoined(tags: seq<string>)
    requires |tags| >= 1 && Join(tags, ',') != []
    requires forall k :: 0 <= k < |tags| ==> ',' !in tags[k]
    ensures Tags(Join(tags, ',')) == Some(tags)
  {
    SplitJoin(tags, ',');
  }

  /** The extension filter: the lower-cased name ends in `.mp4`, `.avi` or `.mov`. */
  predicate IsVideoName(name: string) {
    var lower := Lower(name);
    EndsWith(lower, ".mp4") || EndsWith(lower, ".avi") || EndsWith(lower, ".mov")
  }

  /** A video file name is one whose last four characters, lower-cased, are one of the three extensions. */
  lemma VideoNameSuffix(name: string)
    ensures IsVideoName(name) <==> |name| >= 4 && Lower(name[|name| - 4..]) in {".mp4", ".avi", ".mov"}
  {
    if |name| >= 4 {
      assert Lower(name)[|name| - 4..] == Lower(name[|name| - 4..]);
    }
  }

  /**
   * `os.path.splitext(path)[0]` on a POSIX path: the path without its extension,
   * where a name made only of dots before its last dot has no extension.
   */
  function SplitExtRoot(path: string): string {
    var sepIndex := LastIndex(path, '/');
    var dotIndex := LastIndex(path, '.');
    if dotIndex > sepIndex && !AllDots(path[sepIndex + 1..dotIndex]) then path[..dotIndex] else path
  }

  /** The sidecar text file looked for beside a video: its name with the extension replaced by `.txt`. */
  function SidecarName(name: string): string {
    SplitExtRoot(name) + ".txt"
  }

  /**
   * For a video file name the sidecar drops the four-character extension, except
   * when everything before it is dots (`.mp4` looks for `.mp4.txt`).
   */
  lemma VideoSidecarName(name: string)
    requires IsVideoName(name) && '/' !in name
    ensures |name| >= 4
    ensures SidecarName(name) == (if AllDots(name[..|name| - 4]) then name else name[..|name| - 4]) + ".txt"
  {
    var n := |name|;
    var lower := Lower(name);
    assert n >= 4;
    assert lower[n - 4] == '.' by {
      assert lower[n - 4..][0] == lower[n - 4];
    }
    assert name[n - 4] == '.';
    forall k | n - 4 < k < n
      ensures name[k] != '.'
    {
      assert lower[n - 4..][k - (n - 4)] == lower[k];
    }
    var dotIndex := LastIndex(name, '.');
    assert dotIndex == n - 4;
    assert LastIndex(name, '/') == -1;
    assert name[0..n - 4] == name[..n - 4];
  }
}
