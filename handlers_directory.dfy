/**
 * Handler discovery applied to the repository's own handlers directory.
 * These lemmas pin down the shipped listing, one file at a time; the general
 * facts about discovery are proved in `PluginCore`.
 */
module HandlersDirectory {
  import opened Python
  import opened PluginCore

  lemma CityProximityFileIsLoaded()
    ensures IsHandlerFile("city_proximity_handler.py")
  {
    var file := "city_proximity_handler.py";
    ExclusionIsRedundant(file);
    assert file[|file| - |HandlerSuffix|..] == HandlerSuffix;
  }

  lemma CityProximityModuleName()
    ensures ModuleName("city_proximity_handler.py") == "city_proximity_handler"
  {
    var file := "city_proximity_handler.py";
    assert file[..|file| - 3] == "city_proximity_handler";
  }

  /** A module name of three words: the class name is the three words capitalized. */
  lemma {:induction false} ThreeWordClassName(a: string, b: string, c: string)
    requires '_' !in a && '_' !in b && '_' !in c
    ensures ClassName(a + ['_'] + (b + ['_'] + c)) == Capitalize(a) + Capitalize(b) + Capitalize(c)
  {
    var tail := b + ['_'] + c;
    var name := a + ['_'] + tail;
    SplitWithoutSeparator(c, '_');
    SplitAtFirst(b, '_', c);
    assert Split(tail, '_') == [b, c];
    SplitAtFirst(a, '_', tail);
    assert Split(name, '_') == [a, b, c];
    var caps := CapitalizeAll([a, b, c]);
    assert caps == [Capitalize(a), Capitalize(b), Capitalize(c)];
    assert caps[1..] == [Capitalize(b), Capitalize(c)] && caps[1..][1..] == [Capitalize(c)] && caps[1..][1..][1..] == [];
    assert Concat(caps[1..][1..]) == Capitalize(c) + Concat([]);
    assert Concat(caps[1..]) == Capitalize(b) + Concat(caps[1..][1..]);
    assert Concat(caps) == Capitalize(a) + Concat(caps[1..]);
    assert ClassName(name) == Concat(caps);
  }

  predicate LowerWord(w: string) {
    forall i :: 0 <= i < |w| ==> IsAsciiLower(w[i])
  }

  /** A word of lower-case letters is capitalized by upper-casing its first letter alone. */
  lemma CapitalizeLowerWord(w: string)
    requires w != [] && LowerWord(w)
    ensures Capitalize(w) == [Upper(w[0])] + w[1..]
  {
    var r := Capitalize(w);
    assert forall i :: 0 < i < |w| ==> r[i] == w[i];
  }

  lemma CapitalizeCity()
    ensures Capitalize("city") == "City"
  {
    CapitalizeLowerWord("city");
  }

  lemma CapitalizeProximity()
    ensures Capitalize("proximity") == "Proximity"
  {
    CapitalizeLowerWord("proximity");
  }

  lemma CapitalizeHandler()
    ensures Capitalize("handler") == "Handler"
  {
    CapitalizeLowerWord("handler");
  }

  lemma CityProximityWords(name: string)
    requires name == "city_proximity_handler"
    ensures ClassName(name) == Capitalize("city") + Capitalize("proximity") + Capitalize("handler")
  {
    assert name == "city" + ['_'] + ("proximity" + ['_'] + "handler");
    ThreeWordClassName("city", "proximity", "handler");
  }

  lemma CityProximityCapitalized(a: string, b: string, c: string)
    requires a == "city" && b == "proximity" && c == "handler"
    ensures Capitalize(a) + Capitalize(b) + Capitalize(c) == "CityProximityHandler"
  {
    CapitalizeCity();
    CapitalizeProximity();
    CapitalizeHandler();
    CityProximityConcat();
  }

  lemma CityProximityConcat()
    ensures "City" + "Proximity" + "Handler" == "CityProximityHandler"
  {
  }

  lemma CityProximityClassName(name: string)
    requires name == "city_proximity_handler"
    ensures ClassName(name) == "CityProximityHandler"
  {
    CityProximityWords(name);
    CityProximityCapitalized("city", "proximity", "handler");
  }

  /** The loaded handler's file name gives its module and class names. */
  lemma CityProximityHandlerNames()
    ensures IsHandlerFile("city_proximity_handler.py")
    ensures ModuleName("city_proximity_handler.py") == "city_proximity_handler"
    ensures ClassName("city_proximity_handler") == "CityProximityHandler"
  {
    CityProximityFileIsLoaded();
    CityProximityModuleName();
    CityProximityClassName("city_proximity_handler");
  }

  lemma SkippedEntry(entry: string)
    requires !IsHandlerFile(entry)
    ensures HandlerClasses([entry]) == []
  {
    assert [entry][1..] == [];
  }

  lemma LoadedEntry(entry: string)
    requires IsHandlerFile(entry)
    ensures HandlerClasses([entry]) == [ClassName(ModuleName(entry))]
  {
    assert [entry][1..] == [];
  }

  /** A name shorter than the suffix is never loaded, so neither sub-directory is. */
  lemma ShortNameSkipped(entry: string)
    requires |entry| < |HandlerSuffix|
    ensures !IsHandlerFile(entry)
  {
  }

  /**
   * The top level of the handlers directory: one rule file, the base class
   * file and the `disabled` and `todo` sub-directories. Only the city
   * proximity rule is loaded.
   */
  lemma HandlersDirectory(entries: seq<string>)
    requires entries == ["city_proximity_handler.py", "telemetry_event_handlers.py", "disabled", "todo"]
    ensures HandlerClasses(entries) == ["CityProximityHandler"]
  {
    var e0, e1, e2, e3 := entries[0], entries[1], entries[2], entries[3];
    assert entries == [e0] + [e1] + [e2] + [e3];
    HandlerClassesAppend([e0] + [e1] + [e2], [e3]);
    HandlerClassesAppend([e0] + [e1], [e2]);
    HandlerClassesAppend([e0], [e1]);
    CityProximityHandlerNames();
    LoadedEntry(e0);
    SkippedEntry(e1);
    ShortNameSkipped(e2);
    SkippedEntry(e2);
    ShortNameSkipped(e3);
    SkippedEntry(e3);
  }
}
