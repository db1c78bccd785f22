/**
 * The pure helpers of the object-storage browser
 * (frontend/src/components/ObjectStorageList.tsx): folder-prefix arithmetic
 * for "navigate up" and the breadcrumb, the display name of a key inside the
 * current folder, the preview type of a key and the file name a download is
 * saved under.
 */
module ObjectPaths {
  import opened Wrappers
  import opened Text
  import opened Seqs

  /** `prefix.split('/').filter(p => p)`: the non-empty folder names of a prefix. */
  function PathSegments(prefix: string): seq<string> {
    FilterBy(Split(prefix, '/'), (part: string) => part != "")
  }

  /** A folder name as it appears in a segment list: non-empty and free of '/'. */
  predicate IsSegmentList(segs: seq<string>) {
    forall k :: 0 <= k < |segs| ==> segs[k] != "" && '/' !in segs[k]
  }

  /** The canonical spelling of a folder prefix: "" or "s1/s2/.../sn/". */
  function Render(segs: seq<string>): string {
    if segs == [] then "" else Join(segs, '/') + "/"
  }

  /** The pieces `PathSegments` returns are real folder names. */
  lemma PathSegmentsAreSegments(prefix: string)
    ensures IsSegmentList(PathSegments(prefix))
  {
    var pieces := Split(prefix, '/');
    var segs := PathSegments(prefix);
    JoinSplit(prefix, '/');
    forall k | 0 <= k < |segs| ensures segs[k] != "" && '/' !in segs[k] {
      FilterMembers(pieces, (part: string) => part != "", segs[k]);
      var j :| 0 <= j < |pieces| && pieces[j] == segs[k];
    }
  }

  /** Reading back a rendered prefix gives its segments. */
  lemma SegmentsOfRender(segs: seq<string>)
    requires IsSegmentList(segs)
    ensures PathSegments(Render(segs)) == segs
  {
    if segs != [] {
      var keep := (part: string) => part != "";
      JoinSnoc(segs, "", '/');
      assert Render(segs) == Join(segs + [""], '/');
      assert NoDelimiter(segs + [""], '/') by {
        forall k | 0 <= k < |segs + [""]| ensures '/' !in (segs + [""])[k] {
          if k < |segs| { assert (segs + [""])[k] == segs[k]; }
        }
      }
      SplitJoin(segs + [""], '/');
      FilterConcat(segs, [""], keep);
      FilterKeepsAccepted(segs, keep);
      assert FilterBy([""], keep) == [];
    }
  }

  /** `handleNavigateUp`: drop the last folder name and re-render. */
  function NavigateUpPrefix(currentPrefix: string): (newPrefix: string)
    ensures newPrefix == "" || EndsWith(newPrefix, "/")
  {
    var parts := PathSegments(currentPrefix);
    var popped := if |parts| > 0 then parts[..|parts| - 1] else parts;
    if |popped| > 0 then Join(popped, '/') + "/" else ""
  }

  /** Navigating up removes exactly the last folder name, and the result is a canonical prefix. */
  lemma NavigateUpDropsLastSegment(currentPrefix: string)
    ensures var segs := PathSegments(currentPrefix);
            PathSegments(NavigateUpPrefix(currentPrefix)) == (if segs == [] then [] else segs[..|segs| - 1])
    ensures var segs := PathSegments(currentPrefix);
            NavigateUpPrefix(currentPrefix) == Render(if segs == [] then [] else segs[..|segs| - 1])
  {
    var segs := PathSegments(currentPrefix);
    PathSegmentsAreSegments(currentPrefix);
    var popped := if segs == [] then [] else segs[..|segs| - 1];
    assert IsSegmentList(popped) by {
      forall k | 0 <= k < |popped| ensures popped[k] != "" && '/' !in popped[k] {
        assert popped[k] == segs[k];
      }
    }
    SegmentsOfRender(popped);
  }

  /** Appending the dropped folder to the result gives back a canonical prefix. */
  lemma NavigateUpThenDescend(currentPrefix: string)
    requires currentPrefix == Render(PathSegments(currentPrefix)) && currentPrefix != ""
    ensures var segs := PathSegments(currentPrefix);
            NavigateUpPrefix(currentPrefix) + segs[|segs| - 1] + "/" == currentPrefix
  {
    var segs := PathSegments(currentPrefix);
    NavigateUpDropsLastSegment(currentPrefix);
    var n := |segs|;
    var last := segs[n - 1];
    if n > 1 {
      var init := segs[..n - 1];
      JoinSnoc(init, last, '/');
      assert init + [last] == segs;
      assert NavigateUpPrefix(currentPrefix) == Join(init, '/') + "/";
      assert currentPrefix == Join(init, '/') + ['/'] + last + "/";
    } else {
      assert segs == [last];
      assert NavigateUpPrefix(currentPrefix) == "";
      assert currentPrefix == last + "/";
    }
  }

  /** Leaving "a/b/c/" lands in "a/b/". */
  lemma NavigateUpExamples()
    ensures NavigateUpPrefix("a/b/c/") == "a/b/"
  {
    assert Split("a/b/c/", '/') == ["a", "b", "c", ""] by {
      SplitAfterPart("a", "b/c/", '/');
      SplitAfterPart("b", "c/", '/');
      SplitAfterPart("c", "", '/');
      assert "a/b/c/" == "a" + ['/'] + "b/c/";
      assert "b/c/" == "b" + ['/'] + "c/";
      assert "c/" == "c" + ['/'] + "";
    }
    assert PathSegments("a/b/c/") == ["a", "b", "c"];
    assert ["a", "b", "c"][..2] == ["a", "b"];
    assert Join(["a", "b"], '/') == "a" + ['/'] + Join(["b"], '/') == "a/b";
  }

  /** Leaving a top-level folder, or the root, lands on the root. */
  lemma NavigateUpToRoot()
    ensures NavigateUpPrefix("a/") == ""
    ensures NavigateUpPrefix("") == ""
  {
    assert Split("a/", '/') == ["a", ""] by {
      SplitAfterPart("a", "", '/');
      assert "a/" == "a" + ['/'] + "";
    }
  }

  /** The target of a breadcrumb item: the prefix made of the first `index + 1` folder names. */
  function PathUpTo(currentPrefix: string, index: nat): string
    requires index < |PathSegments(currentPrefix)|
  {
    Join(PathSegments(currentPrefix)[..index + 1], '/') + "/"
  }

  /** The breadcrumb prefix for segment `index` names exactly the first `index + 1` folders. */
  lemma PathUpToSegments(currentPrefix: string, index: nat)
    requires index < |PathSegments(currentPrefix)|
    ensures PathSegments(PathUpTo(currentPrefix, index)) == PathSegments(currentPrefix)[..index + 1]
  {
    var segs := PathSegments(currentPrefix);
    PathSegmentsAreSegments(currentPrefix);
    var first := segs[..index + 1];
    assert IsSegmentList(first) by {
      forall k | 0 <= k < |first| ensures first[k] != "" && '/' !in first[k] {
        assert first[k] == segs[k];
      }
    }
    SegmentsOfRender(first);
  }

  /** Navigating up from a breadcrumb target lands on the breadcrumb one step to the left. */
  lemma NavigateUpFromBreadcrumb(currentPrefix: string, index: nat)
    requires index < |PathSegments(currentPrefix)|
    ensures NavigateUpPrefix(PathUpTo(currentPrefix, index))
         == if index == 0 then "" else PathUpTo(currentPrefix, index - 1)
  {
    var segs := PathSegments(currentPrefix);
    PathUpToSegments(currentPrefix, index);
    NavigateUpDropsLastSegment(PathUpTo(currentPrefix, index));
    assert segs[..index + 1][..index] == segs[..index];
  }

  /** The last breadcrumb of a canonical prefix is the prefix itself. */
  lemma LastBreadcrumbIsCurrent(currentPrefix: string)
    requires currentPrefix == Render(PathSegments(currentPrefix)) && currentPrefix != ""
    ensures PathUpTo(currentPrefix, |PathSegments(currentPrefix)| - 1) == currentPrefix
  {
    var segs := PathSegments(currentPrefix);
    assert segs[..|segs|] == segs;
  }

  /** One breadcrumb item: its caption and the prefix its click opens (`None` when the click does nothing). */
  datatype Crumb = Crumb(caption: string, target: Option<string>)

  /** The breadcrumb bar of the objects screen: the root "/" and one item per folder name. */
  function Breadcrumbs(currentPrefix: string): (crumbs: seq<Crumb>)
    ensures var segs := PathSegments(currentPrefix);
            && |crumbs| == |segs| + 1
            && crumbs[0] == Crumb("/", Some(""))
            && (forall i :: 0 <= i < |segs| ==> crumbs[i + 1].caption == segs[i])
            && (forall i :: 1 <= i < |crumbs| ==> (crumbs[i].target.None? <==> i == |crumbs| - 1))
            && (forall i :: 0 <= i < |segs| - 1 ==> crumbs[i + 1].target == Some(PathUpTo(currentPrefix, i)))
  {
    var segs := PathSegments(currentPrefix);
    var items := seq(|segs|, i requires 0 <= i < |segs| =>
                       Crumb(segs[i], if i == |segs| - 1 then None else Some(PathUpTo(currentPrefix, i))));
    var crumbs := [Crumb("/", Some(""))] + items;
    assert forall i :: 1 <= i < |crumbs| ==> crumbs[i] == items[i - 1];
    crumbs
  }

  /** `getDisplayName`: `key.replace(currentPrefix, '')`, which removes the FIRST occurrence anywhere in the key. */
  function DisplayName(key: string, currentPrefix: string): string {
    ReplaceFirst(key, currentPrefix, "")
  }

  /** For a key inside the current folder the display name is the rest of the key. */
  lemma DisplayNameInsideFolder(key: string, currentPrefix: string)
    requires StartsWith(key, currentPrefix)
    ensures DisplayName(key, currentPrefix) == key[|currentPrefix|..]
  {
    assert OccursAt(key, currentPrefix, 0);
  }

  /** The replacement is not anchored at the start: a key that merely contains the prefix loses it too. */
  lemma DisplayNameUnanchored()
    ensures DisplayName("logs/a/x", "a/") == "logs/x"
  {
    var key := "logs/a/x";
    assert key[0..2][0] == 'l' && key[1..3][0] == 'o' && key[2..4][0] == 'g'
        && key[3..5][0] == 's' && key[4..6][0] == '/';
    assert OccursAt(key, "a/", 5);
    assert IndexOf(key, "a/") == Some(5);
  }

  /** What a preview shows: the JSON-lines viewer or the plain-text viewer. */
  datatype PreviewType = JsonLines | PlainText

  const TextExtensions: seq<string> := [
    ".ini", ".md", ".json", ".pem", ".txt", ".tfstate", ".yaml", ".yml", ".xml", ".html", ".css",
    ".js", ".ts", ".py", ".go", ".sh", ".bash", ".log", ".conf", ".cfg", ".env", ".sql"
  ]

  /** `key.split('/').pop()`: the piece after the last '/'. */
  function LastPiece(key: string): string {
    var pieces := Split(key, '/');
    pieces[|pieces| - 1]
  }

  /** The last piece of a key is a suffix of it and contains no '/'. */
  lemma LastPieceIsSuffix(key: string)
    ensures EndsWith(key, LastPiece(key)) && '/' !in LastPiece(key)
    ensures '/' !in key ==> LastPiece(key) == key
  {
    var pieces := Split(key, '/');
    JoinSplit(key, '/');
    var n := |pieces|;
    assert '/' !in pieces[n - 1];
    if n > 1 {
      JoinSnoc(pieces[..n - 1], pieces[n - 1], '/');
      assert pieces[..n - 1] + [pieces[n - 1]] == pieces;
    }
    if '/' !in key {
      SplitNoDelimiter(key, '/');
    }
  }

  predicate IsJsonLinesKey(key: string) {
    EndsWith(ToLower(key), ".json.gz") || EndsWith(ToLower(key), ".jsonl.gz")
  }

  predicate IsReadme(fileName: string) {
    ToUpper(fileName) == "README" || StartsWith(ToUpper(fileName), "README.")
  }

  predicate HasTextExtension(key: string) {
    exists i :: 0 <= i < |TextExtensions| && EndsWith(ToLower(key), TextExtensions[i])
  }

  /**
   * `getPreviewType`: gzip-compressed JSON is shown as JSON lines; a README
   * file or a key ending in a text extension (case-insensitively) as text;
   * anything else has no preview. The JSON-lines test wins over the others.
   */
  method GetPreviewType(key: string) returns (r: Option<PreviewType>)
    ensures r == Some(JsonLines) <==> IsJsonLinesKey(key)
    ensures r == Some(PlainText) <==>
              !IsJsonLinesKey(key) && (IsReadme(LastPiece(key)) || HasTextExtension(key))
    ensures r == None <==> !IsJsonLinesKey(key) && !IsReadme(LastPiece(key)) && !HasTextExtension(key)
  {
    var lowerKey := ToLower(key);
    if EndsWith(lowerKey, ".json.gz") || EndsWith(lowerKey, ".jsonl.gz") {
      return Some(JsonLines);
    }
    var fileName := LastPiece(key);
    if ToUpper(fileName) == "README" || StartsWith(ToUpper(fileName), "README.") {
      return Some(PlainText);
    }
    for i := 0 to |TextExtensions|
      invariant forall j :: 0 <= j < i ==> !EndsWith(lowerKey, TextExtensions[j])
    {
      if EndsWith(lowerKey, TextExtensions[i]) {
        return Some(PlainText);
      }
    }
    return None;
  }

  /** `isPreviewable`: the preview button is shown exactly when there is a preview type. */
  method IsPreviewable(key: string) returns (b: bool)
    ensures b <==> IsJsonLinesKey(key) || IsReadme(LastPiece(key)) || HasTextExtension(key)
  {
    var t := GetPreviewType(key);
    b := t.Some?;
  }

  /** In `handleDownload`: the save-dialog name is the last piece of the key, or the whole key when that piece is empty. */
  function DownloadFileName(key: string): (fileName: string)
    ensures EndsWith(key, fileName)
    ensures fileName == key || (fileName != "" && '/' !in fileName)
    ensures '/' !in key ==> fileName == key
  {
    LastPieceIsSuffix(key);
    var last := LastPiece(key);
    if last != "" then last else key
  }
}
