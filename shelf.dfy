/** The file shelf: the records of the uploaded files, their folder
    categories, the icon of each entry, and the grouped, ordered list of
    controls the shelf shows. */
module Shelf {
  import opened Wrappers
  import opened Text

  /** One entry of the shelf. Scraped pages carry no thumbnail. */
  datatype FileRecord = FileRecord(name: string, uri: string, mime: string, tokens: nat, thumbnail: Option<string>)

  datatype Category = Documents | Images | Videos | Audio | Links | Other

  /** The order in which the folders are shown. */
  const CATEGORY_ORDER: seq<Category> := [Documents, Images, Videos, Audio, Links, Other]

  function CategoryLabel(c: Category): string {
    match c
    case Documents => "Documents"
    case Images => "Images"
    case Videos => "Videos"
    case Audio => "Audio"
    case Links => "Links"
    case Other => "Other"
  }

  /** The name prefixes of link and voice-note entries. */
  const LINK_MARK: string := "\U{1F517}"
  const MIC_MARK: string := "\U{1F3A4}"

  /** `get_file_category`: the folder of an entry. The name marks win over
      the MIME type; the name suffix tests are case-sensitive. */
  function FileCategory(name: string, mime: string): (c: Category)
    ensures StartsWith(name, LINK_MARK) <==> c == Links
    ensures c == Audio <==> (!StartsWith(name, LINK_MARK) && (StartsWith(name, MIC_MARK) ||
              (!Contains(mime, "image") && !Contains(mime, "video") && Contains(mime, "audio"))))
    ensures c == Images <==> !StartsWith(name, LINK_MARK) && !StartsWith(name, MIC_MARK) && Contains(mime, "image")
    ensures c == Videos <==> (!StartsWith(name, LINK_MARK) && !StartsWith(name, MIC_MARK)
              && !Contains(mime, "image") && Contains(mime, "video"))
    ensures c == Documents <==> (!StartsWith(name, LINK_MARK) && !StartsWith(name, MIC_MARK)
              && !Contains(mime, "image") && !Contains(mime, "video") && !Contains(mime, "audio")
              && DocumentLike(name, mime))
    ensures c == Other <==> (!StartsWith(name, LINK_MARK) && !StartsWith(name, MIC_MARK)
              && !Contains(mime, "image") && !Contains(mime, "video") && !Contains(mime, "audio")
              && !DocumentLike(name, mime))
  {
    if StartsWith(name, LINK_MARK) then Links
    else if StartsWith(name, MIC_MARK) then Audio
    else if Contains(mime, "image") then Images
    else if Contains(mime, "video") then Videos
    else if Contains(mime, "audio") then Audio
    else if DocumentLike(name, mime) then Documents
    else Other
  }

  /** The documents test of `get_file_category`, on case-sensitive names. */
  predicate DocumentLike(name: string, mime: string) {
    Contains(mime, "pdf") || EndsWith(name, ".xlsx") || EndsWith(name, ".pptx") || Contains(mime, "text")
  }

  function RecordCategory(f: FileRecord): Category {
    FileCategory(f.name, f.mime)
  }

  datatype Icon = FileIcon | ImageIcon | VideoIcon | PdfIcon | TableIcon | SlidesIcon | LinkIcon | MicIcon

  /** The icon of an entry in `build_shelf_item`: MIME first, then the
      lower-cased name suffix, then the name marks. */
  function IconFor(name: string, mime: string): (i: Icon)
    ensures i == ImageIcon <==> Contains(mime, "image")
    ensures i == VideoIcon <==> !Contains(mime, "image") && Contains(mime, "video")
    ensures i == PdfIcon <==> !Contains(mime, "image") && !Contains(mime, "video") && Contains(mime, "pdf")
    ensures i == TableIcon <==> (!Contains(mime, "image") && !Contains(mime, "video") && !Contains(mime, "pdf")
              && TableLike(name, mime))
    ensures i == SlidesIcon <==> (!Contains(mime, "image") && !Contains(mime, "video") && !Contains(mime, "pdf")
              && !TableLike(name, mime) && EndsWith(Lower(name), ".pptx"))
    ensures i == LinkIcon <==> !ByContent(name, mime) && StartsWith(name, LINK_MARK)
    ensures i == MicIcon <==> !ByContent(name, mime) && !StartsWith(name, LINK_MARK) && StartsWith(name, MIC_MARK)
    ensures i == FileIcon <==> !ByContent(name, mime) && !StartsWith(name, LINK_MARK) && !StartsWith(name, MIC_MARK)
  {
    if Contains(mime, "image") then ImageIcon
    else if Contains(mime, "video") then VideoIcon
    else if Contains(mime, "pdf") then PdfIcon
    else if TableLike(name, mime) then TableIcon
    else if EndsWith(Lower(name), ".pptx") then SlidesIcon
    else if StartsWith(name, LINK_MARK) then LinkIcon
    else if StartsWith(name, MIC_MARK) then MicIcon
    else FileIcon
  }

  /** The spreadsheet test of `build_shelf_item`, on the lower-cased name. */
  predicate TableLike(name: string, mime: string) {
    EndsWith(Lower(name), ".xlsx") || Contains(mime, "spreadsheet") || Contains(mime, "csv")
  }

  /** Whether the MIME type or the name's suffix decides the icon, before
      the name marks are looked at. */
  predicate ByContent(name: string, mime: string) {
    Contains(mime, "image") || Contains(mime, "video") || Contains(mime, "pdf")
    || TableLike(name, mime) || EndsWith(Lower(name), ".pptx")
  }

  datatype Preview = Thumbnail(image: string) | IconPreview(icon: Icon)

  /** A truthy thumbnail replaces the icon. */
  function PreviewFor(f: FileRecord): (p: Preview)
    ensures p.Thumbnail? <==> f.thumbnail.Some? && f.thumbnail.value != []
    ensures p.IconPreview? ==> p.icon == IconFor(f.name, f.mime)
  {
    if f.thumbnail.Some? && f.thumbnail.value != [] then Thumbnail(f.thumbnail.value)
    else IconPreview(IconFor(f.name, f.mime))
  }

  /** Outside the marked names, the icon agrees with the folder on images
      and videos; a link or voice-note entry keeps its folder whatever its
      MIME type. */
  lemma IconMatchesCategory(name: string, mime: string)
    ensures !StartsWith(name, LINK_MARK) && !StartsWith(name, MIC_MARK) ==>
              (FileCategory(name, mime) == Images <==> IconFor(name, mime) == ImageIcon)
    ensures FileCategory(name, mime) == Videos <==> !StartsWith(name, LINK_MARK) && !StartsWith(name, MIC_MARK) && IconFor(name, mime) == VideoIcon
  {
  }

  /** The icon test lower-cases the name but the folder test does not: an
      upper-case spreadsheet name with a MIME type that names no category
      gets the table icon but lands in "Other". */
  lemma SpreadsheetCaseMismatch(mime: string)
    requires !Contains(mime, "image") && !Contains(mime, "video") && !Contains(mime, "audio")
    requires !Contains(mime, "pdf") && !Contains(mime, "text")
    ensures IconFor("BUDGET.XLSX", mime) == TableIcon
    ensures FileCategory("BUDGET.XLSX", mime) == Other
  {
    var name := "BUDGET.XLSX";
    assert Lower(name) == "budget.xlsx";
    NotStartsWith(name, LINK_MARK);
    NotStartsWith(name, MIC_MARK);
    assert name[|name| - 5..] == ".XLSX";
    assert name[|name| - 5..][1] != ".xlsx"[1] && name[|name| - 5..][1] != ".pptx"[1];
  }

  lemma NotStartsWith(s: string, prefix: string)
    requires |s| > 0 && |prefix| > 0 && s[0] != prefix[0]
    ensures !StartsWith(s, prefix)
  {
    if |prefix| <= |s| {
      assert s[..|prefix|][0] == s[0];
    }
  }

  /** Indices of the entries of category `c`, in shelf order: the list the
      categorising loop builds for that folder. */
  function GroupIndices(files: seq<FileRecord>, c: Category): (g: seq<nat>)
    ensures forall k :: k in g <==> 0 <= k < |files| && RecordCategory(files[k]) == c
    ensures forall j :: 0 <= j < |g| ==> g[j] < |files|
    ensures forall a, b :: 0 <= a < b < |g| ==> g[a] < g[b]
    ensures |g| <= |files|
  {
    if files == [] then []
    else
      var init := files[..|files| - 1];
      GroupIndices(init, c) + (if RecordCategory(files[|files| - 1]) == c then [|files| - 1] else [])
  }

  /** A control of the shelf: a folder header or one entry. */
  datatype ShelfControl =
    | FolderHeader(category: Category, title: string, collapsed: bool)
    | ShelfItem(index: nat, preview: Preview)

  function IsCollapsed(collapsed: map<Category, bool>, c: Category): bool {
    if c in collapsed then collapsed[c] else false
  }

  function Items(files: seq<FileRecord>, group: seq<nat>): (r: seq<ShelfControl>)
    requires forall j :: 0 <= j < |group| ==> group[j] < |files|
    ensures |r| == |group|
  {
    seq(|group|, j requires 0 <= j < |group| => ShelfItem(group[j], PreviewFor(files[group[j]])))
  }

  /** One folder: nothing when empty, else its header with the count, and
      its entries unless it is collapsed. */
  function Section(files: seq<FileRecord>, collapsed: map<Category, bool>, c: Category): seq<ShelfControl> {
    GroupSection(files, collapsed, c, GroupIndices(files, c))
  }

  /** The section of folder `c` whose entries are `g`. */
  function GroupSection(files: seq<FileRecord>, collapsed: map<Category, bool>, c: Category, g: seq<nat>): seq<ShelfControl>
    requires forall j :: 0 <= j < |g| ==> g[j] < |files|
  {
    if g == [] then []
    else
      [FolderHeader(c, CategoryLabel(c) + " (" + NatToString(|g|) + ")", IsCollapsed(collapsed, c))]
      + (if IsCollapsed(collapsed, c) then [] else Items(files, g))
  }

  /** The folders of `CATEGORY_ORDER[..n]`, in that order. */
  function LayoutPrefix(files: seq<FileRecord>, collapsed: map<Category, bool>, n: nat): seq<ShelfControl>
    requires n <= |CATEGORY_ORDER|
  {
    if n == 0 then [] else LayoutPrefix(files, collapsed, n - 1) + Section(files, collapsed, CATEGORY_ORDER[n - 1])
  }

  /** The whole shelf. */
  function ShelfLayout(files: seq<FileRecord>, collapsed: map<Category, bool>): seq<ShelfControl> {
    LayoutPrefix(files, collapsed, |CATEGORY_ORDER|)
  }

  /** One more entry joins the list of its own folder only. */
  lemma GroupIndicesStep(files: seq<FileRecord>, idx: nat, c: Category)
    requires idx < |files|
    ensures GroupIndices(files[..idx + 1], c) ==
            GroupIndices(files[..idx], c) + (if RecordCategory(files[idx]) == c then [idx] else [])
  {
    assert files[..idx + 1][..idx] == files[..idx];
  }

  /** The categorising loop of `build_shelf_ui`: one list of indices per
      folder, each in shelf order. */
  method Categorize(files: seq<FileRecord>) returns (categorized: map<Category, seq<nat>>)
    ensures forall c: Category :: c in categorized && categorized[c] == GroupIndices(files, c)
  {
    categorized := map[Documents := [], Images := [], Videos := [], Audio := [], Links := [], Other := []];
    forall c: Category ensures c in categorized && categorized[c] == GroupIndices(files[..0], c) {
      assert files[..0] == [];
      match c
      case Documents => case Images => case Videos => case Audio => case Links => case Other =>
    }
    var idx := 0;
    while idx < |files|
      invariant 0 <= idx <= |files|
      invariant forall c: Category :: c in categorized && categorized[c] == GroupIndices(files[..idx], c)
    {
      var c := RecordCategory(files[idx]);
      forall d: Category ensures GroupIndices(files[..idx + 1], d) == GroupIndices(files[..idx], d) + (if c == d then [idx] else []) {
        GroupIndicesStep(files, idx, d);
      }
      categorized := categorized[c := categorized[c] + [idx]];
      idx := idx + 1;
    }
    assert files[..idx] == files;
  }

  /** The entries of one expanded folder, appended one by one. */
  method AppendItems(controls0: seq<ShelfControl>, files: seq<FileRecord>, group: seq<nat>) returns (controls: seq<ShelfControl>)
    requires forall j :: 0 <= j < |group| ==> group[j] < |files|
    ensures controls == controls0 + Items(files, group)
  {
    controls := controls0;
    var j := 0;
    while j < |group|
      invariant 0 <= j <= |group|
      invariant controls == controls0 + Items(files, group[..j])
    {
      assert Items(files, group[..j + 1]) == Items(files, group[..j]) + [ShelfItem(group[j], PreviewFor(files[group[j]]))];
      controls := controls + [ShelfItem(group[j], PreviewFor(files[group[j]]))];
      j := j + 1;
    }
    assert group[..j] == group;
  }

  /** One folder of `build_shelf_ui`, given the list of its entries. */
  method AppendSection(controls0: seq<ShelfControl>, files: seq<FileRecord>, collapsed: map<Category, bool>, c: Category, group: seq<nat>)
    returns (controls: seq<ShelfControl>)
    requires forall j :: 0 <= j < |group| ==> group[j] < |files|
    ensures controls == controls0 + GroupSection(files, collapsed, c, group)
  {
    controls := controls0;
    if |group| > 0 {
      var isCollapsed := IsCollapsed(collapsed, c);
      var header := FolderHeader(c, CategoryLabel(c) + " (" + NatToString(|group|) + ")", isCollapsed);
      controls := controls + [header];
      if !isCollapsed {
        controls := AppendItems(controls, files, group);
        assert controls == controls0 + ([header] + Items(files, group));
      } else {
        assert controls == controls0 + ([header] + []);
      }
    }
  }

  /** `build_shelf_ui`: the folders in their fixed order, empty ones
      skipped, collapsed ones reduced to their header. */
  method BuildShelfUi(files: seq<FileRecord>, collapsed: map<Category, bool>) returns (controls: seq<ShelfControl>)
    ensures controls == ShelfLayout(files, collapsed)
  {
    var categorized := Categorize(files);
    controls := [];
    var i := 0;
    while i < |CATEGORY_ORDER|
      invariant 0 <= i <= |CATEGORY_ORDER|
      invariant controls == LayoutPrefix(files, collapsed, i)
    {
      var c := CATEGORY_ORDER[i];
      controls := AppendSection(controls, files, collapsed, c, categorized[c]);
      i := i + 1;
    }
  }

  /** Every entry is in exactly one folder. */
  lemma GroupsPartition(files: seq<FileRecord>, k: nat, c: Category)
    requires k < |files|
    ensures k in GroupIndices(files, c) <==> c == RecordCategory(files[k])
  {
  }

  function GroupSizeSum(files: seq<FileRecord>, n: nat): nat
    requires n <= |CATEGORY_ORDER|
  {
    if n == 0 then 0 else GroupSizeSum(files, n - 1) + |GroupIndices(files, CATEGORY_ORDER[n - 1])|
  }

  /** How often `c` occurs in `CATEGORY_ORDER[..n]`. */
  function OccurrencesBefore(c: Category, n: nat): nat
    requires n <= |CATEGORY_ORDER|
  {
    if n == 0 then 0 else OccurrencesBefore(c, n - 1) + (if CATEGORY_ORDER[n - 1] == c then 1 else 0)
  }

  /** Adding an entry grows exactly its own folder by one. */
  lemma {:induction false} GroupSizeSumStep(files: seq<FileRecord>, n: nat)
    requires files != [] && n <= |CATEGORY_ORDER|
    ensures GroupSizeSum(files, n) == GroupSizeSum(files[..|files| - 1], n)
              + OccurrencesBefore(RecordCategory(files[|files| - 1]), n)
  {
    if n > 0 {
      GroupSizeSumStep(files, n - 1);
    }
  }

  lemma {:induction false} EmptyShelfSizes(n: nat)
    requires n <= |CATEGORY_ORDER|
    ensures GroupSizeSum([], n) == 0
  {
    if n > 0 {
      EmptyShelfSizes(n - 1);
    }
  }

  /** The folder sizes add up to the number of entries. */
  lemma {:induction false} GroupSizesSum(files: seq<FileRecord>)
    ensures GroupSizeSum(files, |CATEGORY_ORDER|) == |files|
    decreases |files|
  {
    if files != [] {
      GroupSizesSum(files[..|files| - 1]);
      GroupSizeSumStep(files, |CATEGORY_ORDER|);
      var c := RecordCategory(files[|files| - 1]);
      assert OccurrencesBefore(c, |CATEGORY_ORDER|) == 1 by {
        assert OccurrencesBefore(c, 1) == (if c == Documents then 1 else 0);
        assert OccurrencesBefore(c, 2) == (if c in {Documents, Images} then 1 else 0);
        assert OccurrencesBefore(c, 3) == (if c in {Documents, Images, Videos} then 1 else 0);
        assert OccurrencesBefore(c, 4) == (if c in {Documents, Images, Videos, Audio} then 1 else 0);
        assert OccurrencesBefore(c, 5) == (if c != Other then 1 else 0);
      }
    } else {
      EmptyShelfSizes(|CATEGORY_ORDER|);
    }
  }

  /** The controls a folder contributes: a header when non-empty, plus its
      entries when expanded. */
  function SectionSize(files: seq<FileRecord>, collapsed: map<Category, bool>, c: Category): nat {
    var n := |GroupIndices(files, c)|;
    if n == 0 then 0 else 1 + (if IsCollapsed(collapsed, c) then 0 else n)
  }

  function LayoutSize(files: seq<FileRecord>, collapsed: map<Category, bool>, n: nat): nat
    requires n <= |CATEGORY_ORDER|
  {
    if n == 0 then 0 else LayoutSize(files, collapsed, n - 1) + SectionSize(files, collapsed, CATEGORY_ORDER[n - 1])
  }

  /** The shelf has one header per non-empty folder and one control per
      entry of the expanded folders. */
  lemma {:induction false} LayoutLength(files: seq<FileRecord>, collapsed: map<Category, bool>, n: nat)
    requires n <= |CATEGORY_ORDER|
    ensures |LayoutPrefix(files, collapsed, n)| == LayoutSize(files, collapsed, n)
  {
    if n > 0 {
      var m: nat := n - 1;
      LayoutLength(files, collapsed, m);
      LayoutStep(files, collapsed, m + 1);
    }
  }

  /** One more folder adds its section to the shelf and its size to the
      count. */
  lemma LayoutStep(files: seq<FileRecord>, collapsed: map<Category, bool>, n: nat)
    requires 0 < n <= |CATEGORY_ORDER|
    ensures |LayoutPrefix(files, collapsed, n)| == |LayoutPrefix(files, collapsed, n - 1)| + SectionSize(files, collapsed, CATEGORY_ORDER[n - 1])
    ensures LayoutSize(files, collapsed, n) == LayoutSize(files, collapsed, n - 1) + SectionSize(files, collapsed, CATEGORY_ORDER[n - 1])
  {
    SectionLength(files, collapsed, CATEGORY_ORDER[n - 1]);
  }

  lemma SectionLength(files: seq<FileRecord>, collapsed: map<Category, bool>, c: Category)
    ensures |Section(files, collapsed, c)| == SectionSize(files, collapsed, c)
  {
    var g := GroupIndices(files, c);
    if g != [] && !IsCollapsed(collapsed, c) {
      assert |Items(files, g)| == |g|;
    }
  }

  /** How many of the folders of `CATEGORY_ORDER[..n]` are non-empty. */
  function NonEmptyFolders(files: seq<FileRecord>, n: nat): nat
    requires n <= |CATEGORY_ORDER|
  {
    if n == 0 then 0
    else NonEmptyFolders(files, n - 1) + (if GroupIndices(files, CATEGORY_ORDER[n - 1]) == [] then 0 else 1)
  }

  /** With no folder collapsed, the shelf shows every entry once, plus one
      header per non-empty folder. */
  lemma ExpandedShowsAll(files: seq<FileRecord>)
    ensures |ShelfLayout(files, map[])| == |files| + NonEmptyFolders(files, |CATEGORY_ORDER|)
  {
    LayoutLength(files, map[], |CATEGORY_ORDER|);
    ExpandedSize(files, |CATEGORY_ORDER|);
    GroupSizesSum(files);
  }

  lemma {:induction false} ExpandedSize(files: seq<FileRecord>, n: nat)
    requires n <= |CATEGORY_ORDER|
    ensures LayoutSize(files, map[], n) == GroupSizeSum(files, n) + NonEmptyFolders(files, n)
  {
    if n > 0 {
      ExpandedSize(files, n - 1);
    }
  }
}
