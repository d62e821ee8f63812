/**
 * The content identity of a template (class TemplateHash): every root
 * directory is reduced to one MD5 hex digest built from the digests of the
 * files below it, taken in sorted path order, and the root digests are
 * combined, in the caller's order, into the final identity.
 *
 * MD5 itself (RFC 1321) is the parameter `md5`, the hex digest of a whole
 * byte string. A hashlib hasher is modelled by the bytes fed to it so far,
 * so that feeding data in pieces and then asking for the digest is the
 * digest of the concatenation of the pieces.
 */
module TemplateHashing {
  import opened Wrappers
  import opened PathOrder
  import opened PyText

  predicate IsHexChar(c: char) {
    '0' <= c <= '9' || 'a' <= c <= 'f'
  }

  /** What `hexdigest()` returns for MD5: 32 lower-case hexadecimal digits. */
  type HexDigest = s: string | |s| == 32 && forall i | 0 <= i < |s| :: IsHexChar(s[i])
    witness "00000000000000000000000000000000"

  type Md5Fn = seq<byte> -> HexDigest

  /** TemplateHash.BUFFER_SIZE: the size of one buffered read. */
  const BUFFER_SIZE: nat := 4 * 1024

  /** An entry of the filesystem: a regular file with its bytes, or a directory. */
  datatype Entry = File(content: seq<byte>) | Dir

  /** The filesystem: every existing path with what it is. */
  type Tree = map<Path, Entry>

  /** `str.encode()` of a hex digest: one ASCII byte per digit. */
  function Encode(h: HexDigest): (r: seq<byte>)
    ensures |r| == 32
    ensures forall i | 0 <= i < 32 :: r[i] as int == h[i] as int
  {
    seq(32, i requires 0 <= i < 32 => h[i] as int as byte)
  }

  lemma EncodeInjective(a: HexDigest, b: HexDigest)
    requires Encode(a) == Encode(b)
    ensures a == b
  {
  }

  /** A `hashlib.md5()` object. */
  class Md5Hasher {
    const md5: Md5Fn
    var fed: seq<byte>

    constructor (md5: Md5Fn)
      ensures this.md5 == md5 && fed == []
    {
      this.md5 := md5;
      fed := [];
    }

    method Update(data: seq<byte>)
      modifies this
      ensures fed == old(fed) + data
    {
      fed := fed + data;
    }

    function HexDigest(): HexDigest
      reads this
    {
      md5(fed)
    }
  }

  /** The bytes fed to an accumulator that is updated with the encoding of
      each digest of `hs` in turn. */
  function Joined(hs: seq<HexDigest>): seq<byte> {
    if hs == [] then [] else Joined(hs[..|hs| - 1]) + Encode(hs[|hs| - 1])
  }

  lemma {:induction false} JoinedLength(hs: seq<HexDigest>)
    ensures |Joined(hs)| == 32 * |hs|
  {
    if hs != [] { JoinedLength(hs[..|hs| - 1]); }
  }

  lemma SliceOfConcat(a: seq<byte>, b: seq<byte>, lo: nat, hi: nat)
    requires lo <= hi <= |a|
    ensures (a + b)[lo..hi] == a[lo..hi]
  {
  }

  /** Each digest occupies its own 32-byte block, in order: nothing else (no
      path, no separator) enters the accumulator. */
  lemma {:induction false} JoinedBlocks(hs: seq<HexDigest>)
    ensures |Joined(hs)| == 32 * |hs|
    ensures forall k | 0 <= k < |hs| :: Joined(hs)[32 * k .. 32 * k + 32] == Encode(hs[k])
  {
    JoinedLength(hs);
    if hs != [] {
      var init := hs[..|hs| - 1];
      var last := Encode(hs[|hs| - 1]);
      JoinedBlocks(init);
      assert Joined(hs) == Joined(init) + last;
      forall k | 0 <= k < |hs| ensures Joined(hs)[32 * k .. 32 * k + 32] == Encode(hs[k]) {
        if k < |init| {
          SliceOfConcat(Joined(init), last, 32 * k, 32 * k + 32);
          assert init[k] == hs[k];
        } else {
          assert (Joined(init) + last)[|Joined(init)|..] == last;
        }
      }
    }
  }

  /** Different digest sequences are never fed as the same bytes. */
  lemma JoinedInjective(a: seq<HexDigest>, b: seq<HexDigest>)
    requires Joined(a) == Joined(b)
    ensures a == b
  {
    JoinedBlocks(a);
    JoinedBlocks(b);
    forall k | 0 <= k < |a| ensures a[k] == b[k] {
      EncodeInjective(a[k], b[k]);
    }
  }

  predicate IsUnder(root: Path, p: Path) {
    |root| < |p| && p[..|root|] == root
  }

  predicate InTree(fs: Tree, items: seq<Path>) {
    forall i | 0 <= i < |items| :: items[i] in fs
  }

  /** What `root.rglob("*")` may yield: every entry strictly below `root`,
      once each, in no particular order. */
  predicate IsListing(fs: Tree, root: Path, listing: seq<Path>) {
    InTree(fs, listing) &&
    (forall i | 0 <= i < |listing| :: IsUnder(root, listing[i])) &&
    (forall p | p in fs && IsUnder(root, p) :: p in listing) &&
    Distinct(listing)
  }

  /** The contents of the regular files among `items`, in the order of `items`. */
  function FileContents(fs: Tree, items: seq<Path>): seq<seq<byte>>
    requires InTree(fs, items)
  {
    if items == [] then []
    else
      var last := items[|items| - 1];
      FileContents(fs, items[..|items| - 1]) + (if fs[last].File? then [fs[last].content] else [])
  }

  function FileDigests(md5: Md5Fn, contents: seq<seq<byte>>): seq<HexDigest> {
    seq(|contents|, i requires 0 <= i < |contents| => md5(contents[i]))
  }

  lemma SortedInTree(fs: Tree, listing: seq<Path>)
    requires InTree(fs, listing)
    ensures InTree(fs, SortPaths(listing))
  {
    var items := SortPaths(listing);
    forall i | 0 <= i < |items| ensures items[i] in fs {
      assert items[i] in multiset(listing);
    }
  }

  /** The bytes `calculate` feeds to the root accumulator for a root whose
      entries are `listing`. */
  function RootStream(md5: Md5Fn, fs: Tree, listing: seq<Path>): seq<byte>
    requires InTree(fs, listing)
  {
    SortedInTree(fs, listing);
    Joined(FileDigests(md5, FileContents(fs, SortPaths(listing))))
  }

  /** The digest `calculate` returns for a root whose entries are `listing`. */
  function RootDigest(md5: Md5Fn, fs: Tree, listing: seq<Path>): HexDigest
    requires InTree(fs, listing)
  {
    md5(RootStream(md5, fs, listing))
  }

  /** One file's digest, read through a buffer of BUFFER_SIZE bytes: the loop
      stops after the first read that returns fewer bytes than asked for. */
  method DigestFile(md5: Md5Fn, content: seq<byte>) returns (hex: HexDigest, ghost readCalls: nat)
    ensures hex == md5(content)
    ensures readCalls == |content| / BUFFER_SIZE + 1
  {
    var itemHash := new Md5Hasher(md5);
    var pos := 0;
    readCalls := 0;
    while true
      invariant 0 <= pos <= |content| && pos % BUFFER_SIZE == 0
      invariant itemHash.md5 == md5 && itemHash.fed == content[..pos]
      invariant readCalls == pos / BUFFER_SIZE
      decreases |content| - pos
    {
      var data := content[pos .. if pos + BUFFER_SIZE <= |content| then pos + BUFFER_SIZE else |content|];
      readCalls := readCalls + 1;
      itemHash.Update(data);
      assert content[..pos] + data == content[..pos + |data|];
      pos := pos + |data|;
      if |data| < BUFFER_SIZE {
        break;
      }
    }
    assert content[..pos] == content;
    hex := itemHash.HexDigest();
  }

  /** Feeding the entry `items[i]` extends the accumulated bytes by its
      encoded digest when it is a file, and by nothing when it is a directory. */
  lemma FeedEntry(md5: Md5Fn, fs: Tree, items: seq<Path>, i: nat)
    requires InTree(fs, items) && i < |items|
    ensures Joined(FileDigests(md5, FileContents(fs, items[..i + 1]))) ==
      Joined(FileDigests(md5, FileContents(fs, items[..i]))) +
      (if fs[items[i]].File? then Encode(md5(fs[items[i]].content)) else [])
  {
    assert items[..i + 1][..i] == items[..i];
    var before := FileContents(fs, items[..i]);
    if fs[items[i]].File? {
      var c := fs[items[i]].content;
      assert FileContents(fs, items[..i + 1]) == before + [c];
      var ds := FileDigests(md5, before + [c]);
      assert ds[..|ds| - 1] == FileDigests(md5, before);
      assert Joined(ds) == Joined(FileDigests(md5, before)) + Encode(md5(c));
    } else {
      assert FileContents(fs, items[..i + 1]) == before;
    }
  }

  /** TemplateHash.calculate: the digest of one root directory. */
  method Calculate(md5: Md5Fn, fs: Tree, root: Path, listing: seq<Path>) returns (hex: HexDigest)
    requires IsListing(fs, root, listing)
    ensures hex == RootDigest(md5, fs, listing)
  {
    var templateHash := new Md5Hasher(md5);
    var items := SortPaths(listing);
    SortedInTree(fs, listing);
    for i := 0 to |items|
      invariant templateHash.md5 == md5
      invariant templateHash.fed == Joined(FileDigests(md5, FileContents(fs, items[..i])))
    {
      var item := items[i];
      FeedEntry(md5, fs, items, i);
      if fs[item].Dir? {
        continue;
      }
      var itemHex, _ := DigestFile(md5, fs[item].content);
      templateHash.Update(Encode(itemHex));
    }
    assert items[..|items|] == items;
    hex := templateHash.HexDigest();
  }

  /** The argument of the TemplateHash constructor: one path or a list of them. */
  datatype TemplateArg = OnePath(path: Path) | PathList(paths: seq<Path>)

  /** A non-list argument is wrapped into a one-element list. */
  function Roots(template: TemplateArg): (roots: seq<Path>)
    ensures template.OnePath? ==> roots == [template.path]
    ensures template.PathList? ==> roots == template.paths
  {
    match template
    case OnePath(p) => [p]
    case PathList(ps) => ps
  }

  /** The RuntimeError raised for a root that is not an existing directory. */
  datatype PathError = PathMissing(path: Path) | NotADirectory(path: Path)

  /** A computed template identity: the roots it was built from and its hex hash. */
  datatype TemplateHash = TemplateHash(templates: seq<Path>, hash: HexDigest)

  function CheckRoot(fs: Tree, root: Path): (r: Option<PathError>)
    ensures r == None <==> root in fs && fs[root].Dir?
  {
    if root !in fs then Some(PathMissing(root))
    else if !fs[root].Dir? then Some(NotADirectory(root))
    else None
  }

  /** The error for the first root, in the caller's order, that fails its check. */
  function FirstBadRoot(fs: Tree, roots: seq<Path>): Option<PathError> {
    if roots == [] then None
    else
      match FirstBadRoot(fs, roots[..|roots| - 1])
      case Some(e) => Some(e)
      case None => CheckRoot(fs, roots[|roots| - 1])
  }

  lemma {:induction false} FirstBadRootOfPrefix(fs: Tree, roots: seq<Path>, i: nat)
    requires i <= |roots| && FirstBadRoot(fs, roots[..i]).Some?
    ensures FirstBadRoot(fs, roots) == FirstBadRoot(fs, roots[..i])
  {
    if i < |roots| {
      assert roots[..|roots| - 1][..i] == roots[..i];
      FirstBadRootOfPrefix(fs, roots[..|roots| - 1], i);
    } else {
      assert roots[..i] == roots;
    }
  }

  lemma {:induction false} FirstBadRootNone(fs: Tree, roots: seq<Path>)
    ensures FirstBadRoot(fs, roots) == None <==> forall i | 0 <= i < |roots| :: CheckRoot(fs, roots[i]) == None
  {
    if roots != [] {
      var init := roots[..|roots| - 1];
      FirstBadRootNone(fs, init);
      assert forall i | 0 <= i < |init| :: init[i] == roots[i];
    }
  }

  /** rglob's listing is known for every root that is an existing directory. */
  predicate ListingsCover(fs: Tree, roots: seq<Path>, listings: map<Path, seq<Path>>) {
    forall i | 0 <= i < |roots| && roots[i] in fs && fs[roots[i]].Dir? ::
      roots[i] in listings && IsListing(fs, roots[i], listings[roots[i]])
  }

  /** The listings known for all roots also cover any prefix of them. */
  lemma CoverPrefix(fs: Tree, roots: seq<Path>, listings: map<Path, seq<Path>>, i: nat)
    requires i <= |roots| && ListingsCover(fs, roots, listings)
    ensures ListingsCover(fs, roots[..i], listings)
  {
  }

  /** The digest of each root, in the caller's order. */
  function RootDigests(md5: Md5Fn, fs: Tree, roots: seq<Path>, listings: map<Path, seq<Path>>): (r: seq<HexDigest>)
    requires ListingsCover(fs, roots, listings)
    requires FirstBadRoot(fs, roots) == None
    ensures |r| == |roots|
  {
    if roots == [] then []
    else
      var n := |roots| - 1;
      CoverPrefix(fs, roots, listings, n);
      RootDigests(md5, fs, roots[..n], listings) + [RootDigest(md5, fs, listings[roots[n]])]
  }

  /** What the TemplateHash constructor produces: the first bad root's error,
      or the MD5 of the root digests in the caller's order. */
  function ExpectedTemplateHash(md5: Md5Fn, fs: Tree, roots: seq<Path>, listings: map<Path, seq<Path>>)
    : Result<TemplateHash, PathError>
    requires ListingsCover(fs, roots, listings)
  {
    match FirstBadRoot(fs, roots)
    case Some(e) => Err(e)
    case None => Ok(TemplateHash(roots, md5(Joined(RootDigests(md5, fs, roots, listings)))))
  }

  /** The bytes fed to the identity's accumulator after the first `i` roots. */
  function Accumulated(md5: Md5Fn, fs: Tree, roots: seq<Path>, listings: map<Path, seq<Path>>, i: nat): seq<byte>
    requires i <= |roots| && ListingsCover(fs, roots, listings)
    requires FirstBadRoot(fs, roots[..i]) == None
  {
    CoverPrefix(fs, roots, listings, i);
    Joined(RootDigests(md5, fs, roots[..i], listings))
  }

  /** A root that passes its check extends the accumulator by its own digest. */
  lemma RootStep(md5: Md5Fn, fs: Tree, roots: seq<Path>, listings: map<Path, seq<Path>>, i: nat)
    requires i < |roots| && ListingsCover(fs, roots, listings)
    requires FirstBadRoot(fs, roots[..i]) == None && CheckRoot(fs, roots[i]) == None
    ensures FirstBadRoot(fs, roots[..i + 1]) == None
    ensures roots[i] in listings && IsListing(fs, roots[i], listings[roots[i]])
    ensures Accumulated(md5, fs, roots, listings, i + 1)
         == Accumulated(md5, fs, roots, listings, i) + Encode(RootDigest(md5, fs, listings[roots[i]]))
  {
    assert roots[..i + 1][..i] == roots[..i];
    CoverPrefix(fs, roots, listings, i);
    CoverPrefix(fs, roots, listings, i + 1);
    var ds := RootDigests(md5, fs, roots[..i + 1], listings);
    assert ds[..i] == RootDigests(md5, fs, roots[..i], listings);
  }

  /** After the last root, the accumulator holds what the identity is the MD5 of. */
  lemma AllRoots(md5: Md5Fn, fs: Tree, roots: seq<Path>, listings: map<Path, seq<Path>>)
    requires ListingsCover(fs, roots, listings) && FirstBadRoot(fs, roots[..|roots|]) == None
    ensures ExpectedTemplateHash(md5, fs, roots, listings)
         == Ok(TemplateHash(roots, md5(Accumulated(md5, fs, roots, listings, |roots|))))
  {
    assert roots[..|roots|] == roots;
  }

  /** A root that fails its check, after roots that passed, decides the outcome. */
  lemma RootFails(md5: Md5Fn, fs: Tree, roots: seq<Path>, listings: map<Path, seq<Path>>, i: nat)
    requires i < |roots| && ListingsCover(fs, roots, listings)
    requires FirstBadRoot(fs, roots[..i]) == None && CheckRoot(fs, roots[i]).Some?
    ensures ExpectedTemplateHash(md5, fs, roots, listings) == Err(CheckRoot(fs, roots[i]).value)
  {
    assert roots[..i + 1][..i] == roots[..i];
    FirstBadRootOfPrefix(fs, roots, i + 1);
  }

  /** The TemplateHash constructor. */
  method NewTemplateHash(md5: Md5Fn, fs: Tree, template: TemplateArg, listings: map<Path, seq<Path>>)
    returns (r: Result<TemplateHash, PathError>)
    requires ListingsCover(fs, Roots(template), listings)
    ensures r == ExpectedTemplateHash(md5, fs, Roots(template), listings)
  {
    var templates := Roots(template);
    var mhash := new Md5Hasher(md5);
    for i := 0 to |templates|
      invariant FirstBadRoot(fs, templates[..i]) == None
      invariant mhash.md5 == md5
      invariant mhash.fed == Accumulated(md5, fs, templates, listings, i)
    {
      var root := templates[i];
      if root !in fs {
        RootFails(md5, fs, templates, listings, i);
        return Err(PathMissing(root));
      }
      if !fs[root].Dir? {
        RootFails(md5, fs, templates, listings, i);
        return Err(NotADirectory(root));
      }
      RootStep(md5, fs, templates, listings, i);
      var hashed := Calculate(md5, fs, root, listings[root]);
      mhash.Update(Encode(hashed));
    }
    AllRoots(md5, fs, templates, listings);
    r := Ok(TemplateHash(templates, mhash.HexDigest()));
  }

  // Properties of the identity

  /** Hashing the same tree twice gives the same root digest, whatever order
      the filesystem lists the entries in. */
  lemma RootDigestDeterministic(md5: Md5Fn, fs: Tree, root: Path, l1: seq<Path>, l2: seq<Path>)
    requires IsListing(fs, root, l1) && IsListing(fs, root, l2)
    ensures RootDigest(md5, fs, l1) == RootDigest(md5, fs, l2)
  {
    forall p ensures p in l1 <==> p in l2 {
      if p in l1 {
        var i :| 0 <= i < |l1| && l1[i] == p;
        assert IsUnder(root, l1[i]);
      }
      if p in l2 {
        var i :| 0 <= i < |l2| && l2[i] == p;
        assert IsUnder(root, l2[i]);
      }
    }
    ListingOrderIrrelevant(l1, l2);
  }

  lemma {:induction false} RootDigestsDeterministic(md5: Md5Fn, fs: Tree, roots: seq<Path>, ls1: map<Path, seq<Path>>, ls2: map<Path, seq<Path>>)
    requires ListingsCover(fs, roots, ls1) && ListingsCover(fs, roots, ls2)
    requires FirstBadRoot(fs, roots) == None
    ensures RootDigests(md5, fs, roots, ls1) == RootDigests(md5, fs, roots, ls2)
  {
    if roots != [] {
      var n := |roots| - 1;
      CoverPrefix(fs, roots, ls1, n);
      CoverPrefix(fs, roots, ls2, n);
      RootDigestsDeterministic(md5, fs, roots[..n], ls1, ls2);
      RootDigestDeterministic(md5, fs, roots[n], ls1[roots[n]], ls2[roots[n]]);
    }
  }

  /** The whole identity does not depend on the order of any listing. */
  lemma TemplateHashDeterministic(md5: Md5Fn, fs: Tree, roots: seq<Path>, ls1: map<Path, seq<Path>>, ls2: map<Path, seq<Path>>)
    requires ListingsCover(fs, roots, ls1) && ListingsCover(fs, roots, ls2)
    ensures ExpectedTemplateHash(md5, fs, roots, ls1) == ExpectedTemplateHash(md5, fs, roots, ls2)
  {
    if FirstBadRoot(fs, roots) == None {
      RootDigestsDeterministic(md5, fs, roots, ls1, ls2);
    }
  }

  lemma {:induction false} FileContentsAppend(fs: Tree, a: seq<Path>, b: seq<Path>)
    requires InTree(fs, a) && InTree(fs, b)
    ensures InTree(fs, a + b)
    ensures FileContents(fs, a + b) == FileContents(fs, a) + FileContents(fs, b)
    decreases |b|
  {
    if b != [] {
      assert (a + b)[..|a + b| - 1] == a + b[..|b| - 1];
      FileContentsAppend(fs, a, b[..|b| - 1]);
    } else {
      assert a + b == a;
    }
  }

  lemma {:induction false} InsertSplits(x: Path, s: seq<Path>) returns (k: nat)
    requires Sorted(s)
    ensures k <= |s| && Insert(x, s) == s[..k] + [x] + s[k..]
  {
    if s == [] || PathLe(x, s[0]) {
      k := 0;
    } else {
      var k' := InsertSplits(x, s[1..]);
      k := k' + 1;
      assert s[..k] == [s[0]] + s[1..][..k'];
      assert s[k..] == s[1..][k'..];
    }
  }

  lemma DirectoryBetween(fs: Tree, a: seq<Path>, b: seq<Path>, d: Path)
    requires InTree(fs, a) && InTree(fs, b) && d in fs && fs[d].Dir?
    ensures InTree(fs, a + [d] + b)
    ensures FileContents(fs, a + [d] + b) == FileContents(fs, a + b)
  {
    FileContentsAppend(fs, a, [d]);
    FileContentsAppend(fs, a + [d], b);
    FileContentsAppend(fs, a, b);
    assert FileContents(fs, [d]) == [] by {
      assert [d][..0] == [];
    }
  }

  /** A directory placed anywhere among the entries adds no file contents. */
  lemma InsertDirectory(fs: Tree, s: seq<Path>, d: Path, k: nat)
    requires InTree(fs, s) && d in fs && fs[d].Dir? && k <= |s|
    ensures InTree(fs, s[..k] + [d] + s[k..])
    ensures FileContents(fs, s[..k] + [d] + s[k..]) == FileContents(fs, s)
  {
    var a, b := s[..k], s[k..];
    assert s == a + b;
    assert InTree(fs, a) by {
      forall i | 0 <= i < |a| ensures a[i] in fs { assert a[i] == s[i]; }
    }
    assert InTree(fs, b) by {
      forall i | 0 <= i < |b| ensures b[i] in fs { assert b[i] == s[k + i]; }
    }
    DirectoryBetween(fs, a, b, d);
  }

  /** Directories are skipped: adding a directory entry (an empty directory,
      say) to a root leaves what is hashed for it unchanged. */
  lemma DirectoriesContributeNothing(md5: Md5Fn, fs: Tree, listing: seq<Path>, d: Path)
    requires InTree(fs, listing) && d in fs && fs[d].Dir?
    ensures InTree(fs, listing + [d])
    ensures RootStream(md5, fs, listing + [d]) == RootStream(md5, fs, listing)
  {
    assert (listing + [d])[..|listing|] == listing;
    assert SortPaths(listing + [d]) == Insert(d, SortPaths(listing));
    SortedInTree(fs, listing);
    var k := InsertSplits(d, SortPaths(listing));
    InsertDirectory(fs, SortPaths(listing), d, k);
  }

  lemma {:induction false} FileContentsOfEdit(fs: Tree, items: seq<Path>, p: Path, c: seq<byte>)
    requires InTree(fs, items) && p in fs && fs[p].File?
    ensures InTree(fs[p := File(c)], items)
    ensures |FileContents(fs[p := File(c)], items)| == |FileContents(fs, items)|
    ensures forall k | 0 <= k < |FileContents(fs, items)| ::
      FileContents(fs[p := File(c)], items)[k] == FileContents(fs, items)[k] ||
      (FileContents(fs, items)[k] == fs[p].content && FileContents(fs[p := File(c)], items)[k] == c)
  {
    if items != [] {
      FileContentsOfEdit(fs, items[..|items| - 1], p, c);
    }
  }

  lemma {:induction false} EditedFilePosition(fs: Tree, items: seq<Path>, p: Path, c: seq<byte>) returns (k: nat)
    requires InTree(fs, items) && p in fs && fs[p].File? && p in items
    ensures InTree(fs[p := File(c)], items)
    ensures k < |FileContents(fs, items)| == |FileContents(fs[p := File(c)], items)|
    ensures FileContents(fs, items)[k] == fs[p].content && FileContents(fs[p := File(c)], items)[k] == c
  {
    var init := items[..|items| - 1];
    FileContentsOfEdit(fs, init, p, c);
    if items[|items| - 1] == p {
      k := |FileContents(fs, init)|;
    } else {
      assert p in init by {
        var i :| 0 <= i < |items| && items[i] == p;
        assert init[i] == p;
      }
      k := EditedFilePosition(fs, init, p, c);
    }
  }

  /** Changing the bytes of one file changes what is hashed for its root,
      unless MD5 maps the old and the new bytes to the same digest; the root
      digest then changes unless MD5 collides on the two root streams. */
  lemma ContentChangeChangesRootStream(md5: Md5Fn, fs: Tree, listing: seq<Path>, p: Path, c: seq<byte>)
    requires InTree(fs, listing) && p in listing && fs[p].File?
    requires md5(fs[p].content) != md5(c)
    ensures InTree(fs[p := File(c)], listing)
    ensures RootStream(md5, fs, listing) != RootStream(md5, fs[p := File(c)], listing)
  {
    var fs' := fs[p := File(c)];
    var items := SortPaths(listing);
    SortedInTree(fs, listing);
    assert p in items by { assert p in multiset(listing); }
    var k := EditedFilePosition(fs, items, p, c);
    var d := FileDigests(md5, FileContents(fs, items));
    var d' := FileDigests(md5, FileContents(fs', items));
    assert d[k] != d'[k];
    if Joined(d) == Joined(d') {
      JoinedInjective(d, d');
    }
  }

  /** Two different digests, fed in the two orders, give different bytes. */
  lemma DigestOrderMatters(h1: HexDigest, h2: HexDigest)
    requires h1 != h2
    ensures Joined([h1, h2]) != Joined([h2, h1])
  {
    if Joined([h1, h2]) == Joined([h2, h1]) {
      JoinedInjective([h1, h2], [h2, h1]);
    }
  }

  /** The roots are combined in the caller's order: for two roots with
      different digests, the identity of `[a, b]` is the MD5 of other bytes
      than the identity of `[b, a]`. */
  lemma RootOrderMatters(md5: Md5Fn, fs: Tree, a: Path, b: Path, ls: map<Path, seq<Path>>)
    requires ListingsCover(fs, [a, b], ls) && FirstBadRoot(fs, [a, b]) == None
    requires ListingsCover(fs, [b, a], ls) && FirstBadRoot(fs, [b, a]) == None
    requires a in ls && b in ls && InTree(fs, ls[a]) && InTree(fs, ls[b])
    requires RootDigest(md5, fs, ls[a]) != RootDigest(md5, fs, ls[b])
    ensures ExpectedTemplateHash(md5, fs, [a, b], ls) == Ok(TemplateHash([a, b], md5(Joined(RootDigests(md5, fs, [a, b], ls)))))
    ensures ExpectedTemplateHash(md5, fs, [b, a], ls) == Ok(TemplateHash([b, a], md5(Joined(RootDigests(md5, fs, [b, a], ls)))))
    ensures Joined(RootDigests(md5, fs, [a, b], ls)) != Joined(RootDigests(md5, fs, [b, a], ls))
  {
    CoverPrefix(fs, [a, b], ls, 1);
    CoverPrefix(fs, [b, a], ls, 1);
    assert [a, b][..1] == [a] && [b, a][..1] == [b];
    assert [a][..0] == [] && [b][..0] == [];
    var ha, hb := RootDigest(md5, fs, ls[a]), RootDigest(md5, fs, ls[b]);
    assert RootDigests(md5, fs, [a, b], ls) == [ha, hb];
    assert RootDigests(md5, fs, [b, a], ls) == [hb, ha];
    DigestOrderMatters(ha, hb);
  }

  // Renaming entries

  /** `fs2` holds at `f(p)` what `fs` holds at `p`, for every entry `p` of
      `l`, and `f` keeps the order of the entries: files and directories
      renamed without being reordered. */
  predicate Renaming(fs: Tree, fs2: Tree, f: Path -> Path, l: seq<Path>) {
    Monotone(f, l) &&
    forall p | p in l :: p in fs && f(p) in fs2 && fs2[f(p)] == fs[p]
  }

  lemma {:induction false} FileContentsRenamed(fs: Tree, fs2: Tree, f: Path -> Path, t: seq<Path>, l: seq<Path>)
    requires Renaming(fs, fs2, f, l)
    requires forall p | p in t :: p in l
    ensures InTree(fs, t) && InTree(fs2, MapPaths(f, t))
    ensures FileContents(fs2, MapPaths(f, t)) == FileContents(fs, t)
    decreases |t|
  {
    forall i | 0 <= i < |t| ensures t[i] in fs && MapPaths(f, t)[i] in fs2 {
      assert t[i] in t;
    }
    if t != [] {
      var n := |t| - 1;
      assert forall p | p in t[..n] :: p in t;
      FileContentsRenamed(fs, fs2, f, t[..n], l);
      assert MapPaths(f, t)[..n] == MapPaths(f, t[..n]);
      assert t[n] in t;
    }
  }

  /** Paths are never hashed: renaming the entries of a root without
      changing their sorted order leaves what is hashed for it unchanged. */
  lemma RenameKeepsRootStream(md5: Md5Fn, fs: Tree, fs2: Tree, f: Path -> Path, l: seq<Path>)
    requires Renaming(fs, fs2, f, l)
    ensures InTree(fs, l) && InTree(fs2, MapPaths(f, l))
    ensures RootStream(md5, fs2, MapPaths(f, l)) == RootStream(md5, fs, l)
  {
    FileContentsRenamed(fs, fs2, f, l, l);
    SortMapped(f, l);
    SortedElements(l);
    FileContentsRenamed(fs, fs2, f, SortPaths(l), l);
  }
}
