/** A checked-out repository as a tree, the walk over it, and what the sync reads off a path. */
module RepoTree {
  import opened Options
  import opened Text

  /** `Unreadable` is a directory whose listing fails; the walk passes over it. */
  datatype Node = File | Dir(entries: seq<Entry>) | Unreadable

  datatype Entry = Entry(name: string, node: Node)

  // What a path says

  /** The suffix from the last dot of the last component, or nothing. */
  function Ext(path: string): string {
    if path == "" || path[|path| - 1] == '/' then ""
    else if path[|path| - 1] == '.' then "."
    else
      var ext := Ext(path[..|path| - 1]);
      if ext == "" then "" else ext + [path[|path| - 1]]
  }

  /** The last component of a path that does not end in a slash. */
  function Base(path: string): string {
    if path == "" || path[|path| - 1] == '/' then "" else Base(path[..|path| - 1]) + [path[|path| - 1]]
  }

  function TrimSuffix(s: string, suffix: string): string {
    if HasSuffix(s, suffix) then s[..|s| - |suffix|] else s
  }

  /** The language of an extension. */
  function ExtLang(ext: string): Option<string> {
    if ext == ".py" then Some("python")
    else if ext == ".go" then Some("go")
    else if ext == ".rs" then Some("rust")
    else if ext == ".ts" then Some("ts")
    else if ext == ".lua" then Some("lua")
    else None
  }

  /** The extension of a language. */
  function LangExt(lang: string): Option<string> {
    if lang == "python" then Some(".py")
    else if lang == "go" then Some(".go")
    else if lang == "rust" then Some(".rs")
    else if lang == "ts" then Some(".ts")
    else if lang == "lua" then Some(".lua")
    else None
  }

  function LangOf(path: string): Option<string> {
    ExtLang(Ext(path))
  }

  function NameOf(path: string): string {
    TrimSuffix(Base(path), Ext(path))
  }

  /** The path at which the portal stores a new function. */
  function FunctionPath(lang: string, name: string): string
    requires LangExt(lang).Some?
  {
    "functions/" + lang + "/" + name + LangExt(lang).value
  }

  lemma TablesAreInverse(lang: string, ext: string)
    ensures LangExt(lang) == Some(ext) <==> ExtLang(ext) == Some(lang)
  {
  }

  lemma {:induction false} ExtOfDotted(stem: string, letters: string)
    requires '.' !in letters && '/' !in letters
    ensures Ext(stem + "." + letters) == "." + letters
  {
    var path := stem + "." + letters;
    if letters == "" {
      assert path[|path| - 1] == '.';
    } else {
      var short := letters[..|letters| - 1];
      assert path[..|path| - 1] == stem + "." + short;
      ExtOfDotted(stem, short);
      assert letters == short + [letters[|letters| - 1]];
    }
  }

  lemma {:induction false} BaseAfterSlash(dir: string, last: string)
    requires '/' !in last
    ensures Base(dir + "/" + last) == last
  {
    var path := dir + "/" + last;
    if last == "" {
      assert path[|path| - 1] == '/';
    } else {
      var short := last[..|last| - 1];
      assert path[..|path| - 1] == dir + "/" + short;
      BaseAfterSlash(dir, short);
    }
  }

  lemma {:induction false} BaseHasNoSlash(path: string)
    ensures '/' !in Base(path)
  {
    if path != "" && path[|path| - 1] != '/' {
      BaseHasNoSlash(path[..|path| - 1]);
    }
  }

  lemma LangExtShape(lang: string)
    requires LangExt(lang).Some?
    ensures var ext := LangExt(lang).value;
      |ext| > 1 && ext[0] == '.' && '.' !in ext[1..] && '/' !in ext[1..] && ext == "." + ext[1..]
  {
  }

  /** A path as its stem and the extension of its language, if it has one. */
  lemma {:induction false} ExtIsSuffix(path: string)
    ensures HasSuffix(path, Ext(path))
  {
    if path != "" && path[|path| - 1] != '/' && path[|path| - 1] != '.' {
      var short := path[..|path| - 1];
      ExtIsSuffix(short);
      assert path == short + [path[|path| - 1]];
      assert Ext(path) != "" ==> path[|path| - |Ext(path)|..] == short[|short| - |Ext(short)|..] + [path[|path| - 1]];
    }
  }

  lemma SuffixIsExt(path: string, letters: string)
    requires '.' !in letters && '/' !in letters
    ensures HasSuffix(path, "." + letters) <==> Ext(path) == "." + letters
  {
    ExtIsSuffix(path);
    if HasSuffix(path, "." + letters) {
      var stem := path[..|path| - |letters| - 1];
      assert path == stem + "." + letters;
      ExtOfDotted(stem, letters);
    }
  }

  /** The language of a file, told by the end of its path. */
  lemma LanguageIff(path: string)
    ensures LangOf(path) == Some("python") <==> HasSuffix(path, ".py")
    ensures LangOf(path) == Some("go") <==> HasSuffix(path, ".go")
    ensures LangOf(path) == Some("rust") <==> HasSuffix(path, ".rs")
    ensures LangOf(path) == Some("ts") <==> HasSuffix(path, ".ts")
    ensures LangOf(path) == Some("lua") <==> HasSuffix(path, ".lua")
    ensures LangOf(path).Some? ==> LangOf(path).value in {"python", "go", "rust", "ts", "lua"}
  {
    SuffixIsExt(path, "py");
    SuffixIsExt(path, "go");
    SuffixIsExt(path, "rs");
    SuffixIsExt(path, "ts");
    SuffixIsExt(path, "lua");
    assert "." + "py" == ".py" && "." + "go" == ".go" && "." + "rs" == ".rs";
    assert "." + "ts" == ".ts" && "." + "lua" == ".lua";
    hide HasSuffix, Ext;
  }

  /** The name of a function file is that of the file without the extension, dots included. */
  lemma NameOfFile(dir: string, name: string, lang: string)
    requires LangExt(lang).Some? && '/' !in name
    ensures NameOf(dir + "/" + name + LangExt(lang).value) == name
  {
    var ext := LangExt(lang).value;
    LangExtShape(lang);
    assert dir + "/" + name + ext == dir + "/" + name + "." + ext[1..];
    ExtOfDotted(dir + "/" + name, ext[1..]);
    assert dir + "/" + name + ext == dir + "/" + (name + ext);
    BaseAfterSlash(dir, name + ext);
    assert (name + ext)[..|name|] == name && (name + ext)[|name|..] == ext;
  }

  /**
   * The sync reads back from a path of the portal the language it was made with, and the name it was made with exactly
   * when that name has no slash.
   */
  lemma PathRoundTrip(lang: string, name: string)
    requires LangExt(lang).Some?
    ensures LangOf(FunctionPath(lang, name)) == Some(lang)
    ensures NameOf(FunctionPath(lang, name)) == name <==> '/' !in name
  {
    var ext := LangExt(lang).value;
    var path := FunctionPath(lang, name);
    LangExtShape(lang);
    TablesAreInverse(lang, ext);
    assert path == "functions/" + lang + "/" + name + "." + ext[1..];
    ExtOfDotted("functions/" + lang + "/" + name, ext[1..]);
    if '/' !in name {
      NameOfFile("functions/" + lang, name, lang);
    } else {
      BaseHasNoSlash(path);
    }
  }

  // The walk

  /** Names in a directory are distinct single components. */
  predicate WellFormed(node: Node) {
    node.Dir? ==>
      && (forall i :: 0 <= i < |node.entries| ==>
            node.entries[i].name != "" && '/' !in node.entries[i].name && WellFormed(node.entries[i].node))
      && (forall i, j :: 0 <= i < j < |node.entries| ==> node.entries[i].name != node.entries[j].name)
  }

  /**
   * The files below the first `n` entries of the directory at `dir`, in the order of the walk, relative to the root.
   */
  function FilesUpTo(dir: string, node: Node, n: nat): seq<string>
    requires node.Dir? && n <= |node.entries|
    decreases node, n
  {
    if n == 0 then []
    else FilesUpTo(dir, node, n - 1) + Visit(dir + "/" + node.entries[n - 1].name, node.entries[n - 1].node)
  }

  function Visit(path: string, node: Node): seq<string>
    decreases node
  {
    match node
    case File => [TrimPrefix(path, "/")]
    case Dir(entries) => FilesUpTo(path, node, |entries|)
    case Unreadable => []
  }

  /** Following `names` down from a node leads to a file. */
  predicate LeadsToFile(node: Node, names: seq<string>)
    decreases |names|
  {
    if names == [] then node.File?
    else
      node.Dir?
      && (exists k :: 0 <= k < |node.entries| &&
            node.entries[k].name == names[0] && LeadsToFile(node.entries[k].node, names[1..]))
  }

  function PathDown(path: string, names: seq<string>): string
    decreases |names|
  {
    if names == [] then path else PathDown(path + "/" + names[0], names[1..])
  }

  // Each file once

  lemma FoundUpTo(dir: string, node: Node, n: nat, p: string) returns (k: nat)
    requires node.Dir? && n <= |node.entries| && p in FilesUpTo(dir, node, n)
    ensures k < n && p in Visit(dir + "/" + node.entries[k].name, node.entries[k].node)
  {
    if p in FilesUpTo(dir, node, n - 1) {
      k := FoundUpTo(dir, node, n - 1, p);
    } else {
      k := n - 1;
    }
  }

  lemma {:induction false} VisitedUpTo(dir: string, node: Node, n: nat, k: nat, p: string)
    requires node.Dir? && k < n <= |node.entries| && p in Visit(dir + "/" + node.entries[k].name, node.entries[k].node)
    ensures p in FilesUpTo(dir, node, n)
  {
    if k < n - 1 {
      VisitedUpTo(dir, node, n - 1, k, p);
    }
  }

  lemma {:induction false} VisitedIsFile(path: string, node: Node, p: string) returns (names: seq<string>)
    requires p in Visit(path, node)
    ensures LeadsToFile(node, names) && p == TrimPrefix(PathDown(path, names), "/")
    decreases node
  {
    names := [];
    if node.Dir? {
      var k := FoundUpTo(path, node, |node.entries|, p);
      var rest := VisitedIsFile(path + "/" + node.entries[k].name, node.entries[k].node, p);
      names := [node.entries[k].name] + rest;
      assert names[1..] == rest;
    }
  }

  lemma {:induction false} FileIsVisited(path: string, node: Node, names: seq<string>)
    requires LeadsToFile(node, names)
    ensures TrimPrefix(PathDown(path, names), "/") in Visit(path, node)
    decreases |names|
  {
    if names != [] {
      var k :| 0 <= k < |node.entries| && node.entries[k].name == names[0] &&
        LeadsToFile(node.entries[k].node, names[1..]);
      FileIsVisited(path + "/" + names[0], node.entries[k].node, names[1..]);
      VisitedUpTo(path, node, |node.entries|, k, TrimPrefix(PathDown(path, names), "/"));
    }
  }

  /** The walk calls back for exactly the files of the tree. */
  lemma WalkVisitsTheFiles(path: string, node: Node, p: string)
    ensures p in Visit(path, node) <==>
      exists names :: LeadsToFile(node, names) && p == TrimPrefix(PathDown(path, names), "/")
  {
    if p in Visit(path, node) {
      var names := VisitedIsFile(path, node, p);
    }
    if names :| LeadsToFile(node, names) && p == TrimPrefix(PathDown(path, names), "/") {
      FileIsVisited(path, node, names);
    }
  }

  /** The walk finds the file that the portal commits for a function, in the directory of its language. */
  lemma CommittedFileIsVisited(root: Node, lang: string, name: string)
    requires LangExt(lang).Some? && LeadsToFile(root, [lang, name + LangExt(lang).value])
    ensures FunctionPath(lang, name) in Visit("/functions", root)
  {
    var file := name + LangExt(lang).value;
    FileIsVisited("/functions", root, [lang, file]);
    var dir := "/functions" + "/" + lang;
    assert PathDown("/functions", [lang, file]) == PathDown(dir, [file]) by {
      assert [lang, file][1..] == [file];
    }
    assert PathDown(dir, [file]) == PathDown(dir + "/" + file, []) by {
      assert [file][1..] == [];
    }
    assert "/functions" + "/" + lang + "/" + file == "/" + FunctionPath(lang, name) by {
      assert "/functions" + "/" == "/" + "functions/";
    }
  }

  /** `p` is the file at `path` or lies below it. */
  predicate Under(path: string, p: string) {
    HasPrefix("/" + p, path) && (|path| == 1 + |p| || (|path| < 1 + |p| && ("/" + p)[|path|] == '/'))
  }

  lemma {:induction false} VisitedIsUnder(path: string, node: Node, p: string)
    requires HasPrefix(path, "/") && p in Visit(path, node)
    ensures Under(path, p)
    decreases node
  {
    if node.Dir? {
      var k := FoundUpTo(path, node, |node.entries|, p);
      var below := path + "/" + node.entries[k].name;
      VisitedIsUnder(below, node.entries[k].node, p);
      assert ("/" + p)[..|below|][..|path|] == path;
      assert ("/" + p)[|path|] == below[|path|];
    }
  }

  lemma UnderStartsWith(dir: string, name: string, p: string)
    requires '/' !in name && Under(dir + "/" + name, p)
    ensures var rest := ("/" + p)[|dir| + 1..]; name == rest[..IndexOf(rest, '/')]
  {
    var whole := "/" + p;
    var path := dir + "/" + name;
    var rest := whole[|dir| + 1..];
    assert rest[..|name|] == whole[..|path|][|dir| + 1..] == name;
    IndexOfIs(rest, '/', |name|);
  }

  lemma SiblingsAreApart(dir: string, a: string, b: string, p: string)
    requires '/' !in a && '/' !in b && Under(dir + "/" + a, p) && Under(dir + "/" + b, p)
    ensures a == b
  {
    UnderStartsWith(dir, a, p);
    UnderStartsWith(dir, b, p);
  }

  predicate Distinct(s: seq<string>) {
    forall i, j :: 0 <= i < j < |s| ==> s[i] != s[j]
  }

  lemma DistinctParts(a: seq<string>, b: seq<string>)
    requires Distinct(a) && Distinct(b) && forall p :: p in a ==> p !in b
    ensures Distinct(a + b)
  {
    forall i, j | 0 <= i < j < |a + b|
      ensures (a + b)[i] != (a + b)[j]
    {
      if i < |a| <= j {
        assert a[i] in a && b[j - |a|] in b;
      }
    }
  }

  /** In a well-formed tree the walk visits no file twice. */
  lemma {:induction false} WalkVisitsOnce(path: string, node: Node)
    requires WellFormed(node) && HasPrefix(path, "/")
    ensures Distinct(Visit(path, node))
    decreases node, 0
  {
    if node.Dir? {
      WalkVisitsOnceUpTo(path, node, |node.entries|);
    }
  }

  lemma {:induction false} WalkVisitsOnceUpTo(path: string, node: Node, n: nat)
    requires node.Dir? && n <= |node.entries| && WellFormed(node) && HasPrefix(path, "/")
    ensures Distinct(FilesUpTo(path, node, n))
    decreases node, 0, n
  {
    if n > 0 {
      var last := node.entries[n - 1];
      var before, here := FilesUpTo(path, node, n - 1), Visit(path + "/" + last.name, last.node);
      WalkVisitsOnceUpTo(path, node, n - 1);
      WalkVisitsOnce(path + "/" + last.name, last.node);
      forall p | p in before
        ensures p !in here
      {
        var k := FoundUpTo(path, node, n - 1, p);
        VisitedIsUnder(path + "/" + node.entries[k].name, node.entries[k].node, p);
        if p in here {
          VisitedIsUnder(path + "/" + last.name, last.node, p);
          SiblingsAreApart(path, node.entries[k].name, last.name, p);
        }
      }
      DistinctParts(before, here);
    }
  }
}
