/** The file system the core touches: directories, item files, JSON
    documents and SQLite database files. The three kinds of file are kept in
    separate maps by path. */
module Disk {
  import opened Wrappers
  import opened Errors
  import Items
  import Schema
  import JsonValues

  /** `os.path.join(a, b)`: an absolute `b` replaces `a`; otherwise a single
      '/' separates the two. */
  function PathJoin(a: string, b: string): (p: string)
    ensures |b| > 0 && b[0] == '/' ==> p == b
    ensures (|b| == 0 || b[0] != '/') && a != "" && a[|a| - 1] != '/' ==> p == a + "/" + b
    ensures (|b| == 0 || b[0] != '/') && (a == "" || a[|a| - 1] == '/') ==> p == a + b
  {
    if |b| > 0 && b[0] == '/' then b
    else if a == "" || a[|a| - 1] == '/' then a + b
    else a + "/" + b
  }

  /** The file map after `shutil.move(src, dst)` of an existing `src`;
      moving a file onto itself changes nothing. */
  function Moved(files: map<string, Items.Bytes>, src: string, dst: string): (after: map<string, Items.Bytes>)
    requires src in files
    ensures dst in after && after[dst] == files[src]
    ensures src != dst ==> src !in after
    ensures forall p :: p != src && p != dst ==> (p in after <==> p in files)
    ensures forall p :: p != src && p != dst && p in files ==> after[p] == files[p]
  {
    if src == dst then files else (files - {src})[dst := files[src]]
  }

  class FileSystem {
    var dirs: set<string>
    var files: map<string, Items.Bytes>
    var documents: map<string, JsonValues.Document>
    var databases: map<string, Schema.Database>

    constructor (dirs: set<string>, files: map<string, Items.Bytes>,
                 documents: map<string, JsonValues.Document>, databases: map<string, Schema.Database>)
      ensures this.dirs == dirs && this.files == files
      ensures this.documents == documents && this.databases == databases
    {
      this.dirs := dirs;
      this.files := files;
      this.documents := documents;
      this.databases := databases;
    }

    /** `shutil.move(src, dst)`: FileNotFoundError when `src` is absent. */
    method Move(src: string, dst: string) returns (r: Outcome)
      modifies this`files
      ensures src in old(files) ==> r.Pass? && files == Moved(old(files), src, dst)
      ensures src !in old(files) ==> r == Fail(NotFound(src)) && files == old(files)
    {
      if src in files {
        files := Moved(files, src, dst);
        r := Pass;
      } else {
        r := Fail(NotFound(src));
      }
    }

    /** `open(path, "wb").write(data)`. */
    method Write(path: string, data: Items.Bytes)
      modifies this`files
      ensures files == old(files)[path := data]
    {
      files := files[path := data];
    }
  }
}
