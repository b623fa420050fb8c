/** One unit of content, remote or local (bdl/item.py). The URL is taken
    already parsed: urlparse is not part of this model, so a `Url` carries
    its text (the identity key) together with the netloc and the path that
    urlparse gives for it. */
module Items {
  import opened Wrappers
  import Strings

  type Bytes = seq<bv8>

  datatype Url = Url(text: string, netloc: string, path: string)

  /** An item hash: a hash supplied by the caller or read from the index,
      the hex SHA-256 digest of the content (SHA-256 itself is not modelled:
      the digest is named by the bytes it is computed from), or the empty
      `bytes()` given to an item without content. */
  datatype Digest = Hex(text: string) | Sha256Hex(data: Bytes) | EmptyBytes

  /** `os.path.basename(path)`: the text after the last '/'. */
  function Basename(path: string): (b: string)
    ensures '/' !in b
    ensures |b| <= |path| && b == path[|path| - |b|..]
  {
    path[Strings.LastIndexOf(path, '/') + 1..]
  }

  /** The basename is the longest '/'-free suffix: whatever of the path lies
      before it ends in '/'. */
  lemma BasenameIsLast(path: string)
    ensures var b := Basename(path);
            && '/' !in b && b == path[|path| - |b|..]
            && (|b| < |path| ==> path[|path| - |b| - 1] == '/')
            && ('/' !in path ==> b == path)
  {
  }

  /** `"".join(basename.split('.')[0:-1]) or basename` (item.py:30). */
  function DerivedFilename(basename: string): string
  {
    var parts := Strings.Split(basename, '.');
    var joined := Strings.Concat(parts[..|parts| - 1]);
    if joined != "" then joined else basename
  }

  /** `basename.rfind('.') >= 0 and basename.split('.')[-1] or ''` (item.py:31). */
  function DerivedExtension(basename: string): string
  {
    var parts := Strings.Split(basename, '.');
    if Strings.LastIndexOf(basename, '.') >= 0 then parts[|parts| - 1] else ""
  }

  /** A given filename wins unless it is absent or empty. */
  function ItemFilename(given: Option<string>, basename: string): (f: string)
    ensures given.Some? && given.value != "" ==> f == given.value
    ensures given.None? || given.value == "" ==> f == DerivedFilename(basename)
  {
    if given.Some? && given.value != "" then given.value else DerivedFilename(basename)
  }

  /** A given extension wins unless it is absent or empty. */
  function ItemExtension(given: Option<string>, basename: string): (e: string)
    ensures given.Some? && given.value != "" ==> e == given.value
    ensures given.None? || given.value == "" ==> e == DerivedExtension(basename)
  {
    if given.Some? && given.value != "" then given.value else DerivedExtension(basename)
  }

  /** Splitting at the last separator, position `k`: the parts before it,
      then the text after it. */
  lemma {:induction false} SplitAtLastDot(s: string, k: nat)
    requires k < |s| && s[k] == '.' && '.' !in s[k + 1..]
    ensures Strings.Split(s, '.') == Strings.Split(s[..k], '.') + [s[k + 1..]]
    decreases k
  {
    var r := Strings.Split(s[1..], '.');
    if k == 0 {
      assert s[1..] == s[k + 1..];
      assert r == [s[k + 1..]];
      assert s[..k] == [];
    } else {
      assert s[1..][k - 1] == '.' && s[1..][k..] == s[k + 1..];
      SplitAtLastDot(s[1..], k - 1);
      var q := Strings.Split(s[..k][1..], '.');
      assert s[..k][1..] == s[1..][..k - 1];
      assert r == q + [s[k + 1..]];
      assert s[..k][0] == s[0];
      if s[0] != '.' {
        assert r[0] == q[0] && r[1..] == q[1..] + [s[k + 1..]];
      }
    }
  }

  /** Splitting a text whose last separator is at `|x|`. */
  lemma SplitAtLast(x: string, y: string)
    requires '.' !in y
    ensures Strings.Split(x + ['.'] + y, '.') == Strings.Split(x, '.') + [y]
  {
    var s := x + ['.'] + y;
    assert s[..|x|] == x && s[|x|] == '.' && s[|x| + 1..] == y;
    SplitAtLastDot(s, |x|);
  }

  /** Gluing the dot-free parts gives the text with its dots removed. */
  lemma {:induction false} ConcatSplit(x: string)
    ensures Strings.Concat(Strings.Split(x, '.')) == Strings.Remove(x, '.')
    decreases |x|
  {
    if x != [] {
      ConcatSplit(x[1..]);
      var rest := Strings.Split(x[1..], '.');
      if x[0] != '.' {
        var parts := [[x[0]] + rest[0]] + rest[1..];
        assert parts[1..] == rest[1..];
        assert Strings.Concat(rest) == rest[0] + Strings.Concat(rest[1..]);
      } else {
        assert ([""] + rest)[1..] == rest;
      }
    }
  }

  /** The extension stated without `split`: the text after the last dot,
      or "" when there is no dot. */
  lemma ExtensionReference(basename: string)
    ensures var i := Strings.LastIndexOf(basename, '.');
            && (i < 0 ==> DerivedExtension(basename) == "")
            && (i >= 0 ==> DerivedExtension(basename) == basename[i + 1..])
  {
    var i := Strings.LastIndexOf(basename, '.');
    if i >= 0 {
      SplitAtLastDot(basename, i);
    }
  }

  /** The filename stated without `split`: the text before the last dot
      with its dots removed, or the whole basename when that is empty or
      there is no dot. */
  lemma FilenameReference(basename: string)
    ensures var i := Strings.LastIndexOf(basename, '.');
            && (i < 0 ==> DerivedFilename(basename) == basename)
            && (i >= 0 ==>
                  DerivedFilename(basename) ==
                  (var stem := Strings.Remove(basename[..i], '.'); if stem != "" then stem else basename))
  {
    var i := Strings.LastIndexOf(basename, '.');
    if i >= 0 {
      SplitAtLastDot(basename, i);
      var parts := Strings.Split(basename, '.');
      assert parts[..|parts| - 1] == Strings.Split(basename[..i], '.');
      ConcatSplit(basename[..i]);
    }
  }

  /** The hash an item reports: a supplied hash unchanged, else the digest of
      the content, else the empty bytes (item.py:61-70). */
  function HashOf(supplied: Option<Digest>, content: Option<Bytes>): (d: Digest)
    ensures supplied.Some? ==> d == supplied.value
    ensures supplied.None? && content.Some? ==> d == Sha256Hex(content.value)
    ensures supplied.None? && content.None? ==> d == EmptyBytes
  {
    if supplied.Some? then supplied.value
    else if content.Some? then Sha256Hex(content.value)
    else EmptyBytes
  }

  /** An item as a value: what the index store and the orchestrator read. */
  datatype ItemData = ItemData(
    url: Url,
    filename: string,
    extension: string,
    storename: Option<string>,
    content: Option<Bytes>,
    hashed: Digest,
    metadata: map<string, string>,
    tempfile: Option<string>)

  /** The value of `Item(url, filename, extension, storename, content,
      hashed, metadata, tempfile)` (item.py:13-38). */
  function MakeItem(url: Url, filename: Option<string>, extension: Option<string>,
                    storename: Option<string>, content: Option<Bytes>, hashed: Option<Digest>,
                    metadata: map<string, string>, tempfile: Option<string>): (d: ItemData)
    ensures d.url == url && d.metadata == metadata && d.storename == storename
    ensures d.filename == ItemFilename(filename, Basename(url.path))
    ensures d.extension == ItemExtension(extension, Basename(url.path))
    ensures d.content == content && d.tempfile == tempfile && d.hashed == HashOf(hashed, content)
  {
    var basename := Basename(url.path);
    ItemData(url, ItemFilename(filename, basename), ItemExtension(extension, basename),
             storename, content, HashOf(hashed, content), metadata, tempfile)
  }

  class Item {
    const url: Url
    const filename: string
    const extension: string
    const content: Option<Bytes>
    var hash: Option<Digest>
    var storename: Option<string>
    var metadata: map<string, string>
    var tempfile: Option<string>

    /** The constructor derives filename and extension from the URL path's
        basename and starts from an empty metadata mapping updated with
        `metadata`. */
    constructor (url: Url, filename: Option<string>, extension: Option<string>,
                 storename: Option<string>, content: Option<Bytes>, hashed: Option<Digest>,
                 metadata: map<string, string>, tempfile: Option<string>)
      ensures Data() == MakeItem(url, filename, extension, storename, content, hashed, metadata, tempfile)
      ensures hash == hashed
    {
      var basename := Basename(url.path);
      this.url := url;
      this.filename := ItemFilename(filename, basename);
      this.extension := ItemExtension(extension, basename);
      this.content := content;
      this.hash := hashed;
      this.storename := storename;
      this.metadata := map[];
      this.tempfile := tempfile;
      new;
      SetMetadata(metadata);
    }

    /** The item as a value; the hash is the one `Hashed` reports. */
    function Data(): ItemData
      reads this
    {
      ItemData(url, filename, extension, storename, content, HashValue(), metadata, tempfile)
    }

    /** The `content` property: empty bytes when none is held. */
    function Content(): (c: Bytes)
      reads this
      ensures content.None? ==> c == []
      ensures content.Some? ==> c == content.value
    {
      if content.Some? then content.value else []
    }

    /** The hash `hashed` returns, computed or cached. */
    function HashValue(): Digest
      reads this
    {
      HashOf(hash, content)
    }

    /** The `hashed` property: computed once and cached; a cached or supplied
        hash is returned unchanged. */
    method Hashed() returns (h: Digest)
      modifies this`hash
      ensures h == old(HashValue()) && hash == Some(h)
      ensures old(hash).Some? ==> h == old(hash).value
      ensures old(hash).None? && content.None? ==> h == EmptyBytes
      ensures Data() == old(Data())
    {
      if hash.None? {
        if content.Some? {
          hash := Some(Sha256Hex(content.value));
        } else {
          hash := Some(EmptyBytes);
        }
      }
      h := hash.value;
    }

    /** `set_metadata`: later values override earlier ones. */
    method SetMetadata(attributes: map<string, string>)
      modifies this`metadata
      ensures metadata == old(metadata) + attributes
      ensures forall k :: k in attributes ==> metadata[k] == attributes[k]
      ensures forall k :: k in old(metadata) && k !in attributes ==> metadata[k] == old(metadata)[k]
    {
      metadata := metadata + attributes;
    }

    function GetMetadata(): map<string, string>
      reads this
    {
      metadata
    }

    /** `has_tempfile()`. */
    predicate HasTempfile()
      reads this
    {
      tempfile.Some?
    }

    method SetStorename(value: Option<string>)
      modifies this`storename
      ensures storename == value
    {
      storename := value;
    }

    method SetTempfile(path: Option<string>)
      modifies this`tempfile
      ensures tempfile == path && HasTempfile() == path.Some?
    {
      tempfile := path;
    }
  }
}
