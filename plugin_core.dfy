/**
 * The plugin core's handler discovery: which entries of the handlers
 * directory are loaded, and the module and class names derived from a file
 * name. Importing the module, looking the class up and registering the
 * instance are reflection and are not part of this model.
 */
module PluginCore {
  import opened Wrappers
  import opened Python

  const HandlerSuffix: string := "_handler.py"
  const ExcludedFile: string := "telemetry_event_handlers.py"

  /** The test a directory entry passes to be loaded. */
  predicate IsHandlerFile(filename: string) {
    EndsWith(filename, HandlerSuffix) && filename != ExcludedFile
  }

  /** The exclusion is redundant: the excluded name does not end in `_handler.py`. */
  lemma ExclusionIsRedundant(filename: string)
    ensures IsHandlerFile(filename) <==> EndsWith(filename, HandlerSuffix)
  {
    assert ExcludedFile[|ExcludedFile| - |HandlerSuffix|..] == "handlers.py";
  }

  /** `filename[:-3]`. */
  function ModuleName(filename: string): string {
    SliceTo(filename, -3)
  }

  /** For a `.py` file the module name is the file name without the extension. */
  lemma ModuleNameStripsExtension(filename: string)
    requires EndsWith(filename, ".py")
    ensures ModuleName(filename) + ".py" == filename
  {
    assert filename == filename[..|filename| - 3] + filename[|filename| - 3..];
  }

  function Concat(words: seq<string>): string {
    if words == [] then "" else words[0] + Concat(words[1..])
  }

  function CapitalizeAll(words: seq<string>): (r: seq<string>)
    ensures |r| == |words|
    ensures forall i :: 0 <= i < |words| ==> r[i] == Capitalize(words[i])
  {
    if words == [] then [] else [Capitalize(words[0])] + CapitalizeAll(words[1..])
  }

  /** `"".join(word.capitalize() for word in module_name.split("_"))`. */
  function ClassName(moduleName: string): string {
    Concat(CapitalizeAll(Split(moduleName, '_')))
  }

  lemma {:induction false} ConcatContains(words: seq<string>, c: char)
    requires forall i :: 0 <= i < |words| ==> c !in words[i]
    ensures c !in Concat(words)
  {
    if words != [] {
      ConcatContains(words[1..], c);
    }
  }

  /** A derived class name holds no underscore: each separator is dropped and no letter turns into one. */
  lemma ClassNameHasNoUnderscore(moduleName: string)
    ensures '_' !in ClassName(moduleName)
  {
    var words := Split(moduleName, '_');
    var caps := CapitalizeAll(words);
    forall i | 0 <= i < |caps|
      ensures '_' !in caps[i]
    {
      var w := words[i];
      assert '_' !in w;
      forall k | 0 <= k < |caps[i]|
        ensures caps[i][k] != '_'
      {
        assert w[k] != '_';
      }
    }
    ConcatContains(caps, '_');
  }

  /** The class names the loop instantiates, in directory order. */
  function HandlerClasses(entries: seq<string>): seq<string> {
    if entries == [] then []
    else (if IsHandlerFile(entries[0]) then [ClassName(ModuleName(entries[0]))] else []) + HandlerClasses(entries[1..])
  }

  lemma {:induction false} HandlerClassesAppend(a: seq<string>, b: seq<string>)
    ensures HandlerClasses(a + b) == HandlerClasses(a) + HandlerClasses(b)
  {
    if a == [] {
      assert a + b == b;
    } else {
      assert (a + b)[1..] == a[1..] + b;
      HandlerClassesAppend(a[1..], b);
    }
  }

  /** Each class loaded comes from an entry ending in `_handler.py`; the sub-directories are never entered. */
  lemma {:induction false} HandlerClassesFromHandlerFiles(entries: seq<string>, name: string)
    requires name in HandlerClasses(entries)
    ensures exists i :: 0 <= i < |entries| && EndsWith(entries[i], HandlerSuffix) && name == ClassName(ModuleName(entries[i]))
  {
    if IsHandlerFile(entries[0]) && name == ClassName(ModuleName(entries[0])) {
      assert EndsWith(entries[0], HandlerSuffix);
    } else {
      HandlerClassesFromHandlerFiles(entries[1..], name);
      var i :| 0 <= i < |entries[1..]| && EndsWith(entries[1..][i], HandlerSuffix) && name == ClassName(ModuleName(entries[1..][i]));
      assert entries[i + 1] == entries[1..][i];
    }
  }

  /** The loop of `register_telemetry_handlers` over the directory entries: the classes to instantiate and register. */
  method RegisterTelemetryHandlers(entries: seq<string>) returns (classes: seq<string>)
    ensures classes == HandlerClasses(entries)
  {
    classes := [];
    for i := 0 to |entries|
      invariant classes == HandlerClasses(entries[..i])
    {
      HandlerClassesAppend(entries[..i], [entries[i]]);
      assert entries[..i + 1] == entries[..i] + [entries[i]];
      assert HandlerClasses([entries[i]]) == (if IsHandlerFile(entries[i]) then [ClassName(ModuleName(entries[i]))] else []) + HandlerClasses([]);
      if EndsWith(entries[i], HandlerSuffix) && entries[i] != ExcludedFile {
        var moduleName := SliceTo(entries[i], -3);
        var className := ClassName(moduleName);
        classes := classes + [className];
      }
    }
    assert entries[..|entries|] == entries;
  }

  /** `register_module` / `unregister_module`: `True` unless the module's call raises. */
  function ModuleCall(outcome: Result<(), PyError>): (ok: bool)
    ensures ok <==> outcome.Success?
  {
    match outcome
    case Success(_) => true
    case Failure(_) => false
  }
}
