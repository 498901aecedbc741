/** Declaration-level reading and editing of Go files (code.go). Parsing and
    printing belong to Go's toolchain and are not modelled: a parsed file is
    its package name, its imports and its top-level declarations, each kept
    with the text the printer gives for it. */
module Code {
  import opened Base
  import opened Strings

  /** A top-level declaration. A function holds the printed receiver list
      (for a method), its name, its printed parameters and results, and its
      printed body (braces included); any other declaration (a type, a
      variable, a constant, an import) holds its printed text. */
  datatype Decl =
    | FuncDecl(recv: Option<string>, name: string, signature: string, body: string)
    | GenDecl(text: string)

  /** An import: an optional local name and the quoted import path. */
  datatype Import = Import(alias: Option<string>, path: string)

  /** A parsed Go file. The imports are also among the declarations, as
      `import` declarations, as the parser gives them. */
  datatype GoFile = GoFile(packageName: string, imports: seq<Import>, decls: seq<Decl>)

  /** Reading and parsing the file a tool is pointed at. */
  datatype Source = ReadFailed(error: string) | ParseFailed(error: string) | Parsed(file: GoFile)

  /** Parsing the snippet of a new function (as the body of `package p`). */
  datatype Snippet = SnippetFailed(error: string) | SnippetParsed(decls: seq<Decl>)

  /** The map a code tool returns: its "results" or its "error" entry. */
  datatype Response = Results(text: string) | Failure(error: string)

  // ---------------------------------------------------------------- printing

  /** The receiver part of a function's header. */
  function RecvText(recv: Option<string>): string
  {
    match recv
    case None => ""
    case Some(r) => r + " "
  }

  /** The printer's text for a whole function declaration. */
  function FuncText(d: Decl): string
    requires d.FuncDecl?
  {
    "func " + RecvText(d.recv) + d.name + d.signature + " " + d.body
  }

  /** The printer's text for a declaration. */
  function DeclText(d: Decl): string
  {
    match d
    case FuncDecl(_, _, _, _) => FuncText(d)
    case GenDecl(text) => text
  }

  /** A sequence of declarations printed in order, each followed by a blank line. */
  function Printed(decls: seq<Decl>): string
  {
    if decls == [] then "" else Printed(decls[..|decls| - 1]) + DeclText(decls[|decls| - 1]) + "\n\n"
  }

  /** The printer's text for a function type on its own: with its `func` keyword. */
  function TypeText(signature: string): string
  {
    "func" + signature
  }

  /** The stub of an unselected function as code.go:145-152 builds it: the
      header is rebuilt from the name and the printed function type. The
      printer refuses a bare receiver list (a field list is not a node it
      prints), so of the receiver only the blank after it is written. */
  function StubAsWritten(d: Decl): string
    requires d.FuncDecl?
  {
    "func " + (if d.recv.Some? then " " else "") + d.name + TypeText(d.signature) + " {}"
  }

  /** The stub of an unselected function: its header with an empty body. */
  function Stub(d: Decl): (s: string)
    requires d.FuncDecl?
    ensures s == FuncText(d.(body := "{}"))
  {
    "func " + RecvText(d.recv) + d.name + d.signature + " {}"
  }

  /** The rebuilt stub repeats the `func` keyword inside the header: for
      `func Function2()` it gives "func Function2func() {}", not the
      declaration with an empty body that `Stub` gives. */
  lemma StubAsWrittenRepeatsKeyword()
    ensures var d := FuncDecl(None, "Function2", "()", "{ body }");
            && StubAsWritten(d) == "func Function2func() {}"
            && Stub(d) == "func Function2() {}"
            && StubAsWritten(d) != Stub(d)
  {
    var d := FuncDecl(None, "Function2", "()", "{ body }");
    assert StubAsWritten(d)[14] == 'f' && Stub(d)[14] == '(';
  }

  /** The rebuilt stub of a method also loses its receiver: for
      `func (s *S) M()` it gives "func  Mfunc() {}". */
  lemma StubAsWrittenDropsReceiver()
    ensures var m := FuncDecl(Some("(s *S)"), "M", "()", "{ body }");
            && StubAsWritten(m) == "func  Mfunc() {}"
            && Stub(m) == "func (s *S) M() {}"
            && StubAsWritten(m) != Stub(m)
  {
    var m := FuncDecl(Some("(s *S)"), "M", "()", "{ body }");
    assert StubAsWritten(m)[5] == ' ' && Stub(m)[5] == '(';
  }

  // ---------------------------------------------------------------- ReadCode

  /** The line of one import in the import block. */
  function ImportLine(imp: Import): string
  {
    match imp.alias
    case Some(name) => "\t" + name + " " + imp.path + "\n"
    case None => "\t" + imp.path + "\n"
  }

  /** The lines of some imports, in order. */
  function ImportLines(imports: seq<Import>): string
  {
    if imports == [] then "" else ImportLines(imports[..|imports| - 1]) + ImportLine(imports[|imports| - 1])
  }

  /** The package clause. */
  function PackageClause(f: GoFile): string
  {
    "package " + f.packageName + "\n\n"
  }

  /** The package clause, then the import block when there are imports. */
  function Header(f: GoFile): string
  {
    PackageClause(f) + (if f.imports == [] then "" else "import (\n" + ImportLines(f.imports) + ")\n\n")
  }

  /** One declaration in the output of `ReadCode`: a selected function in full,
      another function as its stub, anything else as printed. */
  function RenderDecl(d: Decl, functions: seq<string>): string
  {
    match d
    case FuncDecl(_, name, _, _) => (if name in functions then FuncText(d) else Stub(d)) + "\n\n"
    case GenDecl(text) => text + "\n\n"
  }

  /** The declarations in the output of `ReadCode`, in order. */
  function Rendered(decls: seq<Decl>, functions: seq<string>): string
  {
    if decls == [] then "" else Rendered(decls[..|decls| - 1], functions) + RenderDecl(decls[|decls| - 1], functions)
  }

  /** What `ReadCode(path, functions...)` returns. */
  function ReadCodeResult(source: Source, functions: seq<string>): (r: Response)
    ensures r.Results? <==> source.Parsed?
    ensures r.Results? ==> StartsWith(r.text, PackageClause(source.file))
  {
    match source
    case ReadFailed(e) => Failure("Error reading file: " + e)
    case ParseFailed(e) => Failure("Error parsing file: " + e)
    case Parsed(f) => Results(Header(f) + Rendered(f.decls, functions))
  }

  /** `ReadCode`: the file with the bodies of the functions not asked for
      replaced by empty ones. */
  method ReadCode(source: Source, functions: seq<string>) returns (r: Response)
    ensures r == ReadCodeResult(source, functions)
  {
    if source.ReadFailed? {
      return Failure("Error reading file: " + source.error);
    }
    if source.ParseFailed? {
      return Failure("Error parsing file: " + source.error);
    }
    var f := source.file;
    var result := WriteHeader(f);
    for i := 0 to |f.decls|
      invariant result == Header(f) + Rendered(f.decls[..i], functions)
    {
      assert f.decls[..i + 1][..i] == f.decls[..i];
      var decl := f.decls[i];
      var piece := WriteDecl(decl, functions);
      assert Rendered(f.decls[..i + 1], functions) == Rendered(f.decls[..i], functions) + piece;
      AppendAssoc(Header(f), Rendered(f.decls[..i], functions), piece);
      result := result + piece;
    }
    assert f.decls[..|f.decls|] == f.decls;
    return Results(result);
  }

  /** The package clause and import block of code.go:110-124. */
  method WriteHeader(f: GoFile) returns (result: string)
    ensures result == Header(f)
  {
    result := "package " + f.packageName + "\n\n";
    if |f.imports| > 0 {
      var block := "import (\n";
      for i := 0 to |f.imports|
        invariant block == "import (\n" + ImportLines(f.imports[..i])
      {
        assert f.imports[..i + 1][..i] == f.imports[..i];
        var imp := f.imports[i];
        var line;
        if imp.alias.Some? {
          line := "\t" + imp.alias.value + " " + imp.path + "\n";
        } else {
          line := "\t" + imp.path + "\n";
        }
        assert line == ImportLine(imp);
        assert ImportLines(f.imports[..i + 1]) == ImportLines(f.imports[..i]) + line;
        AppendAssoc("import (\n", ImportLines(f.imports[..i]), line);
        block := block + line;
      }
      assert f.imports[..|f.imports|] == f.imports;
      assert Header(f) == PackageClause(f) + (block + ")\n\n");
      result := result + (block + ")\n\n");
    }
  }

  /** One turn of the declaration loop of code.go:127-158. */
  method WriteDecl(decl: Decl, functions: seq<string>) returns (piece: string)
    ensures piece == RenderDecl(decl, functions)
  {
    match decl {
      case FuncDecl(recv, name, signature, body) =>
        var shouldKeep := Selected(name, functions);
        if shouldKeep {
          piece := FuncText(decl) + "\n\n";
        } else {
          piece := "func ";
          if recv.Some? {
            piece := piece + recv.value + " ";
          }
          piece := piece + name + signature + " {}\n\n";
        }
      case GenDecl(text) =>
        piece := text + "\n\n";
    }
  }

  /** The scan of code.go:131-137: whether `name` is one of `functions`. */
  method Selected(name: string, functions: seq<string>) returns (shouldKeep: bool)
    ensures shouldKeep <==> name in functions
  {
    shouldKeep := false;
    var j := 0;
    while j < |functions|
      invariant 0 <= j <= |functions|
      invariant !shouldKeep && name !in functions[..j]
      decreases |functions| - j
    {
      if name == functions[j] {
        shouldKeep := true;
        break;
      }
      assert functions[..j + 1] == functions[..j] + [functions[j]];
      j := j + 1;
    }
    if !shouldKeep {
      assert functions[..|functions|] == functions;
    }
  }

  /** `decls` with the body of every function not named in `functions` emptied. */
  function Select(decls: seq<Decl>, functions: seq<string>): seq<Decl>
  {
    seq(|decls|, i requires 0 <= i < |decls| => Kept(decls[i], functions))
  }

  /** A declaration as `ReadCode` keeps it: a function not named in
      `functions` with its body emptied, anything else unchanged. */
  function Kept(d: Decl, functions: seq<string>): Decl
  {
    if d.FuncDecl? && d.name !in functions then d.(body := "{}") else d
  }

  /** Selecting a prefix and then one more declaration is selecting both. */
  lemma SelectSnoc(decls: seq<Decl>, functions: seq<string>)
    requires decls != []
    ensures Select(decls, functions) == Select(decls[..|decls| - 1], functions) + [Kept(decls[|decls| - 1], functions)]
  {
    var n := |decls| - 1;
    var kept := Select(decls, functions);
    var front := Select(decls[..n], functions);
    assert |kept| == |front| + 1;
    forall i | 0 <= i < n
      ensures kept[i] == front[i]
    {
      assert decls[..n][i] == decls[i];
    }
  }

  /** The declarations `ReadCode` prints are the file's declarations, in order
      and otherwise unchanged, with the bodies of the functions not asked for
      emptied. */
  lemma {:induction false} RenderedIsSelection(decls: seq<Decl>, functions: seq<string>)
    ensures Rendered(decls, functions) == Printed(Select(decls, functions))
  {
    if decls != [] {
      var n := |decls| - 1;
      RenderedIsSelection(decls[..n], functions);
      var front := Select(decls[..n], functions);
      var last := Kept(decls[n], functions);
      SelectSnoc(decls, functions);
      assert RenderDecl(decls[n], functions) == DeclText(last) + "\n\n";
      assert (front + [last])[..n] == front;
      assert Printed(front + [last]) == Printed(front) + DeclText(last) + "\n\n";
    }
  }

  /** Asking for every function gives back the declarations as printed. */
  lemma KeepAll(decls: seq<Decl>, functions: seq<string>)
    requires forall i :: 0 <= i < |decls| && decls[i].FuncDecl? ==> decls[i].name in functions
    ensures Rendered(decls, functions) == Printed(decls)
  {
    RenderedIsSelection(decls, functions);
    assert Select(decls, functions) == decls;
  }

  /** `decls` with the body of every function emptied. */
  function StubAll(decls: seq<Decl>): seq<Decl>
  {
    seq(|decls|, i requires 0 <= i < |decls| => if decls[i].FuncDecl? then decls[i].(body := "{}") else decls[i])
  }

  /** Asking for no function empties every function's body. */
  lemma KeepNone(decls: seq<Decl>)
    ensures Rendered(decls, []) == Printed(StubAll(decls))
  {
    RenderedIsSelection(decls, []);
    var kept := Select(decls, []);
    forall i | 0 <= i < |decls|
      ensures kept[i] == StubAll(decls)[i]
    {
    }
    assert kept == StubAll(decls);
  }

  /** The output begins with the package clause, and it has an import block
      exactly when the file has imports. */
  lemma HeaderShape(f: GoFile)
    ensures StartsWith(Header(f), PackageClause(f))
    ensures f.imports == [] <==> Header(f) == PackageClause(f)
    ensures f.imports != [] ==> StartsWith(Header(f)[|PackageClause(f)|..], "import (\n")
  {
    var block := "import (\n" + ImportLines(f.imports) + ")\n\n";
    if f.imports != [] {
      assert Header(f) == PackageClause(f) + block;
      assert Header(f)[|PackageClause(f)|..] == block;
    } else {
      assert Header(f) == PackageClause(f) + "";
    }
  }

  // ------------------------------------------------------- AddOrEditFunction

  /** A function declaration, named `name` when a name is given. */
  predicate IsFunc(d: Decl, name: Option<string>)
  {
    d.FuncDecl? && (name.None? || d.name == name.value)
  }

  /** The index of the first function declaration (named `name`, when given). */
  function FindFunc(decls: seq<Decl>, name: Option<string>): (k: Option<nat>)
    ensures k.Some? ==> k.value < |decls| && IsFunc(decls[k.value], name)
    ensures k.Some? ==> forall j :: 0 <= j < k.value ==> !IsFunc(decls[j], name)
    ensures k.None? ==> forall j :: 0 <= j < |decls| ==> !IsFunc(decls[j], name)
  {
    if decls == [] then None
    else if IsFunc(decls[0], name) then Some(0)
    else
      match FindFunc(decls[1..], name)
      case None => None
      case Some(k) => Some(k + 1)
  }

  /** The declarations after adding or editing `name` with the function `newFunc`:
      the first function named `name` gets the body of `newFunc`; without one,
      `newFunc` is appended. */
  function Edited(decls: seq<Decl>, name: string, newFunc: Decl): (after: seq<Decl>)
    requires newFunc.FuncDecl?
    ensures |after| == if FindFunc(decls, Some(name)).Some? then |decls| else |decls| + 1
    ensures forall i :: 0 <= i < |decls| ==> after[i] == decls[i] || (decls[i].FuncDecl? && after[i] == decls[i].(body := newFunc.body))
  {
    match FindFunc(decls, Some(name))
    case Some(k) => decls[k := decls[k].(body := newFunc.body)]
    case None => decls + [newFunc]
  }

  /** Editing an existing function only replaces its body: its receiver, name
      and signature, and every other declaration, stay as they were. */
  lemma EditReplacesBody(decls: seq<Decl>, name: string, newFunc: Decl)
    requires newFunc.FuncDecl? && FindFunc(decls, Some(name)).Some?
    ensures var k := FindFunc(decls, Some(name)).value;
            var after := Edited(decls, name, newFunc);
            && |after| == |decls|
            && after[k] == FuncDecl(decls[k].recv, name, decls[k].signature, newFunc.body)
            && forall j :: 0 <= j < |decls| && j != k ==> after[j] == decls[j]
  {
  }

  /** Adding a function the file lacks appends the new declaration, as parsed,
      after all the others. */
  lemma EditAppends(decls: seq<Decl>, name: string, newFunc: Decl)
    requires newFunc.FuncDecl? && FindFunc(decls, Some(name)).None?
    ensures Edited(decls, name, newFunc) == decls + [newFunc]
    ensures |Edited(decls, name, newFunc)| == |decls| + 1
  {
  }

  /** After the edit, looking `name` up finds the new body, provided the
      function existed or the new one carries that name; the name of an
      appended function is not checked against `name`. */
  lemma EditThenFind(decls: seq<Decl>, name: string, newFunc: Decl)
    requires newFunc.FuncDecl?
    requires FindFunc(decls, Some(name)).Some? || newFunc.name == name
    ensures var after := Edited(decls, name, newFunc);
            var found := FindFunc(after, Some(name));
            found.Some? && after[found.value].body == newFunc.body
  {
    var after := Edited(decls, name, newFunc);
    match FindFunc(decls, Some(name))
    case Some(k) =>
      assert IsFunc(after[k], Some(name));
      FindFuncIsFirst(after, Some(name), k);
    case None =>
      assert IsFunc(after[|decls|], Some(name));
      FindFuncIsFirst(after, Some(name), |decls|);
  }

  /** The index found is the first match: any match before `k` would be found instead. */
  lemma FindFuncIsFirst(decls: seq<Decl>, name: Option<string>, k: nat)
    requires k < |decls| && IsFunc(decls[k], name)
    requires forall j :: 0 <= j < k ==> !IsFunc(decls[j], name)
    ensures FindFunc(decls, name) == Some(k)
  {
  }

  /** What `AddOrEditFunction(path, functionName, functionBody)` returns, and
      the file it writes, if any; `saveError` is the outcome of writing. */
  function AddOrEditResult(source: Source, functionName: string, snippet: Snippet, saveError: Option<string>)
    : (r: (Response, Option<GoFile>))
    ensures r.1.Some? ==> source.Parsed? && snippet.SnippetParsed? && saveError.None?
    ensures r.1.Some? ==> r.1.value.packageName == source.file.packageName && r.1.value.imports == source.file.imports
    ensures r.1.None? ==> r.0.Failure?
  {
    match source
    case ReadFailed(e) => (Failure("Error reading file: " + e), None)
    case ParseFailed(e) => (Failure("Error parsing file: " + e), None)
    case Parsed(f) =>
      match snippet
      case SnippetFailed(e) => (Failure("Error parsing new function: " + e), None)
      case SnippetParsed(newDecls) =>
        match FindFunc(newDecls, None)
        case None => (Failure("Error: Could not parse new function declaration"), None)
        case Some(j) =>
          var edited := f.(decls := Edited(f.decls, functionName, newDecls[j]));
          match saveError
          case Some(e) => (Failure("Error saving file: " + e), None)
          case None => (Results("Function successfully added/edited"), Some(edited))
  }

  /** A file is written exactly when the tool succeeds, and what is written is
      the file with the first function of the snippet added or edited in. */
  lemma WritesOnlyOnSuccess(source: Source, functionName: string, snippet: Snippet, saveError: Option<string>)
    ensures var (r, written) := AddOrEditResult(source, functionName, snippet, saveError);
            && (written.Some? <==> r.Results?)
            && (written.Some? ==>
                  && source.Parsed? && snippet.SnippetParsed?
                  && var j := FindFunc(snippet.decls, None).value;
                  written.value == source.file.(decls := Edited(source.file.decls, functionName, snippet.decls[j])))
    ensures snippet.SnippetParsed? && FindFunc(snippet.decls, None).None? && source.Parsed? ==>
              AddOrEditResult(source, functionName, snippet, saveError)
              == (Failure("Error: Could not parse new function declaration"), None)
  {
  }

  /** `AddOrEditFunction`: adds the snippet's function to the file or replaces
      the body of the function of that name. */
  method AddOrEditFunction(source: Source, functionName: string, snippet: Snippet, saveError: Option<string>)
    returns (r: Response, written: Option<GoFile>)
    ensures (r, written) == AddOrEditResult(source, functionName, snippet, saveError)
  {
    if source.ReadFailed? {
      return Failure("Error reading file: " + source.error), None;
    }
    if source.ParseFailed? {
      return Failure("Error parsing file: " + source.error), None;
    }
    var f := source.file;
    var existing := FindFirst(f.decls, Some(functionName));
    if snippet.SnippetFailed? {
      return Failure("Error parsing new function: " + snippet.error), None;
    }
    var newIndex := FindFirst(snippet.decls, None);
    if newIndex.None? {
      return Failure("Error: Could not parse new function declaration"), None;
    }
    var newFunc := snippet.decls[newIndex.value];
    var decls := f.decls;
    if existing.Some? {
      var k := existing.value;
      decls := decls[k := decls[k].(body := newFunc.body)];
    } else {
      decls := decls + [newFunc];
    }
    if saveError.Some? {
      return Failure("Error saving file: " + saveError.value), None;
    }
    return Results("Function successfully added/edited"), Some(f.(decls := decls));
  }

  /** The search loop of `AddOrEditFunction`: the first function declaration
      (named `name`, when given). */
  method FindFirst(decls: seq<Decl>, name: Option<string>) returns (k: Option<nat>)
    ensures k == FindFunc(decls, name)
  {
    var i := 0;
    while i < |decls|
      invariant 0 <= i <= |decls|
      invariant forall j :: 0 <= j < i ==> !IsFunc(decls[j], name)
      decreases |decls| - i
    {
      if IsFunc(decls[i], name) {
        FindFuncIsFirst(decls, name, i);
        return Some(i);
      }
      i := i + 1;
    }
    NoneFound(decls, name);
    return None;
  }

  /** Without any match the search finds nothing. */
  lemma NoneFound(decls: seq<Decl>, name: Option<string>)
    requires forall j :: 0 <= j < |decls| ==> !IsFunc(decls[j], name)
    ensures FindFunc(decls, name) == None
  {
  }
}
