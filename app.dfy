/** The view controller of `src/app.rs`: the language catalog, the session state, the
    intro-panel preference kept in local storage, the three messages that change the
    state, and the post-render hook that calls the external syntax highlighter. */
module CodeStyle {
  import opened Wrappers
  import Images

  // ---------------------------------------------------------------------------
  // Language catalog
  // ---------------------------------------------------------------------------

  datatype Language =
    | C | CSharp | Python | Css | Delphi | VisualBasic
    | Java | JavaScript | Ruby | Sql | Xml | Php

  /** The twelve languages in declaration order. */
  const AllLanguages: seq<Language> :=
    [C, CSharp, Python, Css, Delphi, VisualBasic, Java, JavaScript, Ruby, Sql, Xml, Php]

  /** CSS class the highlighter reads to pick a grammar. */
  function ToClass(l: Language): string
  {
    match l
    case C => "cpp"
    case CSharp => "csharp"
    case Python => "python"
    case Css => "css"
    case Delphi => "delphi"
    case VisualBasic => "vb"
    case Java => "java"
    case JavaScript => "js"
    case Ruby => "ruby"
    case Sql => "sql"
    case Xml => "xml"
    case Php => "php"
  }

  /** Display name shown on the dropdown button for the chosen language. */
  function ToName(l: Language): string
  {
    match l
    case C => "C / C++"
    case CSharp => "C#"
    case Python => "Python"
    case Css => "CSS"
    case Delphi => "Delphi"
    case VisualBasic => "VisualBasic"
    case Java => "Java"
    case JavaScript => "JavaScript"
    case Ruby => "Ruby"
    case Sql => "SQL"
    case Xml => "HTML / XML"
    case Php => "PHP"
  }

  /** Relative URL of the logo shown on the dropdown button for the chosen language. */
  function ToFilePath(l: Language): string
  {
    match l
    case C => "./assets/images/cpp.png"
    case CSharp => "./assets/images/csharp.png"
    case Python => "./assets/images/python.png"
    case Css => "./assets/images/css.png"
    case Delphi => "./assets/images/delphi.png"
    case VisualBasic => "./assets/images/viauslbasic.svg"
    case Java => "./assets/images/java.png"
    case JavaScript => "./assets/images/javascript.png"
    case Ruby => "./assets/images/ruby.png"
    case Sql => "./assets/images/sql.png"
    case Xml => "./assets/images/html.png"
    case Php => "./assets/images/php.png"
  }

  /** Directory every logo lives in. */
  const AssetDirectory: string := "./assets/images/"

  /** Native extension of a logo: only the VisualBasic logo is a vector image. */
  function ImageExtension(l: Language): string
  {
    if l == VisualBasic then "svg" else "png"
  }

  /** Reads a CSS class back to its language; the inverse of `ToClass`. */
  function FromClass(cls: string): Option<Language>
  {
    if cls == "cpp" then Some(C)
    else if cls == "csharp" then Some(CSharp)
    else if cls == "python" then Some(Python)
    else if cls == "css" then Some(Css)
    else if cls == "delphi" then Some(Delphi)
    else if cls == "vb" then Some(VisualBasic)
    else if cls == "java" then Some(Java)
    else if cls == "js" then Some(JavaScript)
    else if cls == "ruby" then Some(Ruby)
    else if cls == "sql" then Some(Sql)
    else if cls == "xml" then Some(Xml)
    else if cls == "php" then Some(Php)
    else None
  }

  /** The catalog lists every language exactly once, in declaration order. */
  lemma CatalogComplete(l: Language)
    ensures |AllLanguages| == 12
    ensures l in AllLanguages
    ensures forall i, j :: 0 <= i < j < |AllLanguages| ==> AllLanguages[i] != AllLanguages[j]
  {
  }

  /** The class of a language identifies it. */
  lemma ClassRoundTrip(l: Language)
    ensures FromClass(ToClass(l)) == Some(l)
  {
  }

  /** The twelve class strings are pairwise distinct and none is empty. */
  lemma ClassesDistinct(a: Language, b: Language)
    ensures ToClass(a) != ""
    ensures a != b ==> ToClass(a) != ToClass(b)
  {
  }

  /** The twelve display names are pairwise distinct and none is empty, so the
      dropdown button's label tells the chosen languages apart. */
  lemma NamesDistinct(a: Language, b: Language)
    ensures ToName(a) != ""
    ensures a != b ==> ToName(a) != ToName(b)
  {
  }

  /** Every logo lives in the asset directory. */
  lemma FilePathInAssetDirectory(l: Language)
    ensures |ToFilePath(l)| > |AssetDirectory| + 4
    ensures AssetDirectory <= ToFilePath(l)
  {
  }

  /** Every logo path ends with a dot and the native extension: `svg` for VisualBasic,
      `png` for all others. */
  lemma FilePathExtension(l: Language)
    ensures var p := ToFilePath(l);
      && |p| > 4
      && p[|p| - 4] == '.'
      && p[|p| - 3..] == ImageExtension(l)
  {
  }

  /** A path that ends in a dot and an extension is the native URL of what precedes
      the dot. */
  lemma NativeUrlOfStem(p: string, ext: string)
    requires |p| > |ext| && p[|p| - |ext| - 1] == '.' && p[|p| - |ext|..] == ext
    ensures Images.WebpUrl(p[..|p| - |ext| - 1], ext, false) == p
  {
  }

  /** A logo path is the URL `build_webp_url` gives for its stem and native extension
      without WebP support; with support every `png` logo switches to `.webp` and the
      VisualBasic `svg` logo stays as it is. */
  lemma FilePathIsWebpUrlOfStem(l: Language)
    ensures var p := ToFilePath(l);
      var stem := p[..|p| - 4];
      && Images.WebpUrl(stem, ImageExtension(l), false) == p
      && Images.WebpUrl(stem, ImageExtension(l), true)
         == (if l == VisualBasic then p else stem + ".webp")
  {
    FilePathExtension(l);
    NativeUrlOfStem(ToFilePath(l), ImageExtension(l));
  }

  // ---------------------------------------------------------------------------
  // Session state, stored preference, messages
  // ---------------------------------------------------------------------------

  datatype State = State(showInfo: bool, code: string, programmingLanguage: Option<Language>)

  /** The record persisted in local storage. */
  datatype StoredState = StoredState(showInfo: Option<bool>)

  datatype Msg =
    | HideInitMessage(dontShowAgain: bool)
    | ChooseLangauge(language: Language)
    | InputCode(code: string)

  /** Key under which the preference is stored. */
  const StateKey: string := "codestyle.state"

  /** Local storage as seen through the JSON codec: `None` is an entry that does not
      parse as a `StoredState`. */
  type Storage = map<string, Option<StoredState>>

  /** `storage.restore(key)`: a missing key and a malformed entry are both failures. */
  function Restore(storage: Storage, key: string): Option<StoredState>
  {
    if key in storage then storage[key] else None
  }

  /** The state `create` starts from, given what was restored from storage. */
  function InitialState(stored: Option<StoredState>): (s: State)
    ensures s.code == "" && s.programmingLanguage == None
    ensures !s.showInfo <==> stored == Some(StoredState(Some(false)))
  {
    var state := State(true, "", None);
    if stored.Some? && stored.value.showInfo.Some? then
      state.(showInfo := stored.value.showInfo.value)
    else
      state
  }

  /** How one message changes the session state. */
  function Transition(s: State, msg: Msg): State
  {
    match msg
    case HideInitMessage(_) => s.(showInfo := false)
    case ChooseLangauge(l) => s.(programmingLanguage := Some(l))
    case InputCode(code) => s.(code := code)
  }

  /** How one message changes local storage: dismissing the intro writes `!dontShowAgain`
      into the restored record, or into a fresh one when nothing could be restored. */
  function Persist(storage: Storage, msg: Msg): Storage
  {
    match msg
    case HideInitMessage(dontShowAgain) =>
      (match Restore(storage, StateKey)
       case Some(stored) => storage[StateKey := Some(stored.(showInfo := Some(!dontShowAgain)))]
       case None => storage[StateKey := Some(StoredState(Some(!dontShowAgain)))])
    case _ => storage
  }

  /** The post-render hook calls the highlighter exactly when there is code (any
      non-empty text, whitespace included) and a chosen language. */
  predicate ShouldFormat(s: State)
  {
    s.code != "" && s.programmingLanguage.Some?
  }

  /** The `<pre>` block the highlighter rewrites: its text and its CSS class. */
  datatype CodeBlock = CodeBlock(text: string, cssClass: string)

  /** Placeholder text of the code block while no code has been entered. */
  const Placeholder: string := "Nothing to show...yet"

  /** The code block the view renders for a state. */
  function RenderedBlock(s: State): CodeBlock
  {
    CodeBlock(
      if s.code != "" then s.code else Placeholder,
      if s.programmingLanguage.Some? then ToClass(s.programmingLanguage.value) else "")
  }

  /** Whenever the hook fires, the highlighter sees exactly the entered code under the
      class of the chosen language. */
  lemma FormattedBlockCarriesLanguage(s: State)
    requires ShouldFormat(s)
    ensures RenderedBlock(s).text == s.code
    ensures FromClass(RenderedBlock(s).cssClass) == s.programmingLanguage
  {
  }

  // ---------------------------------------------------------------------------
  // One message at a time
  // ---------------------------------------------------------------------------

  /** Dismissing the intro hides it whatever the choice, and nothing else changes. */
  lemma HideInitMessageEffect(s: State, dontShowAgain: bool)
    ensures var t := Transition(s, HideInitMessage(dontShowAgain));
      !t.showInfo && t.code == s.code && t.programmingLanguage == s.programmingLanguage
  {
  }

  /** Choosing a language changes only the language. */
  lemma ChooseLanguageEffect(s: State, l: Language)
    ensures var t := Transition(s, ChooseLangauge(l));
      t.programmingLanguage == Some(l) && t.showInfo == s.showInfo && t.code == s.code
  {
  }

  /** Editing changes only the code. */
  lemma InputCodeEffect(s: State, code: string)
    ensures var t := Transition(s, InputCode(code));
      t.code == code && t.showInfo == s.showInfo && t.programmingLanguage == s.programmingLanguage
  {
  }

  /** Dismissing the intro stores `Some(!dontShowAgain)` under the state key and leaves
      every other key alone; other messages do not touch storage. */
  lemma PersistEffect(storage: Storage, msg: Msg)
    ensures var after := Persist(storage, msg);
      && (msg.HideInitMessage? ==>
            Restore(after, StateKey) == Some(StoredState(Some(!msg.dontShowAgain)))
            && forall k :: k != StateKey ==> Restore(after, k) == Restore(storage, k))
      && (!msg.HideInitMessage? ==> after == storage)
  {
  }

  /** The next session starts with the intro shown exactly when the last dismissal was
      not "don't show again". */
  lemma PersistenceRoundTrip(storage: Storage, dontShowAgain: bool)
    ensures InitialState(Restore(Persist(storage, HideInitMessage(dontShowAgain)), StateKey)).showInfo
            == !dontShowAgain
  {
  }

  // ---------------------------------------------------------------------------
  // Sequences of messages
  // ---------------------------------------------------------------------------

  /** The state after handling the messages in order. */
  function Run(s: State, msgs: seq<Msg>): State
    decreases |msgs|
  {
    if msgs == [] then s else Run(Transition(s, msgs[0]), msgs[1..])
  }

  /** Storage after handling the messages in order. */
  function RunStorage(storage: Storage, msgs: seq<Msg>): Storage
    decreases |msgs|
  {
    if msgs == [] then storage else RunStorage(Persist(storage, msgs[0]), msgs[1..])
  }

  /** The intro is still shown after a run exactly when it was shown before and no
      message dismissed it. */
  lemma {:induction false} RunShowInfo(s: State, msgs: seq<Msg>)
    ensures Run(s, msgs).showInfo
            <==> s.showInfo && forall j :: 0 <= j < |msgs| ==> !msgs[j].HideInitMessage?
    decreases |msgs|
  {
    if msgs != [] {
      RunShowInfo(Transition(s, msgs[0]), msgs[1..]);
      assert forall j :: 1 <= j < |msgs| ==> msgs[j] == msgs[1..][j - 1];
    }
  }

  /** Without an edit the code is unchanged. */
  lemma {:induction false} RunKeepsCode(s: State, msgs: seq<Msg>)
    requires forall j :: 0 <= j < |msgs| ==> !msgs[j].InputCode?
    ensures Run(s, msgs).code == s.code
    decreases |msgs|
  {
    if msgs != [] {
      assert forall j :: 0 <= j < |msgs[1..]| ==> msgs[1..][j] == msgs[j + 1];
      RunKeepsCode(Transition(s, msgs[0]), msgs[1..]);
    }
  }

  /** The code after a run is that of the last edit. */
  lemma {:induction false} RunLastCode(s: State, msgs: seq<Msg>, i: nat)
    requires i < |msgs| && msgs[i].InputCode?
    requires forall j :: i < j < |msgs| ==> !msgs[j].InputCode?
    ensures Run(s, msgs).code == msgs[i].code
    decreases |msgs|
  {
    if i == 0 {
      assert forall j :: 0 <= j < |msgs[1..]| ==> msgs[1..][j] == msgs[j + 1];
      RunKeepsCode(Transition(s, msgs[0]), msgs[1..]);
    } else {
      assert forall j :: i - 1 < j < |msgs[1..]| ==> msgs[1..][j] == msgs[j + 1];
      RunLastCode(Transition(s, msgs[0]), msgs[1..], i - 1);
    }
  }

  /** Without a language choice the language is unchanged. */
  lemma {:induction false} RunKeepsLanguage(s: State, msgs: seq<Msg>)
    requires forall j :: 0 <= j < |msgs| ==> !msgs[j].ChooseLangauge?
    ensures Run(s, msgs).programmingLanguage == s.programmingLanguage
    decreases |msgs|
  {
    if msgs != [] {
      assert forall j :: 0 <= j < |msgs[1..]| ==> msgs[1..][j] == msgs[j + 1];
      RunKeepsLanguage(Transition(s, msgs[0]), msgs[1..]);
    }
  }

  /** The language after a run is the last one chosen. */
  lemma {:induction false} RunLastLanguage(s: State, msgs: seq<Msg>, i: nat)
    requires i < |msgs| && msgs[i].ChooseLangauge?
    requires forall j :: i < j < |msgs| ==> !msgs[j].ChooseLangauge?
    ensures Run(s, msgs).programmingLanguage == Some(msgs[i].language)
    decreases |msgs|
  {
    if i == 0 {
      assert forall j :: 0 <= j < |msgs[1..]| ==> msgs[1..][j] == msgs[j + 1];
      RunKeepsLanguage(Transition(s, msgs[0]), msgs[1..]);
    } else {
      assert forall j :: i - 1 < j < |msgs[1..]| ==> msgs[1..][j] == msgs[j + 1];
      RunLastLanguage(Transition(s, msgs[0]), msgs[1..], i - 1);
    }
  }

  /** After any run that chose a language and edited the code, the highlighter fires
      exactly when the latest edit is non-empty. */
  lemma FormatsAfterLatestEdits(s: State, msgs: seq<Msg>, i: nat, k: nat)
    requires i < |msgs| && msgs[i].InputCode?
    requires forall j :: i < j < |msgs| ==> !msgs[j].InputCode?
    requires k < |msgs| && msgs[k].ChooseLangauge?
    requires forall j :: k < j < |msgs| ==> !msgs[j].ChooseLangauge?
    ensures ShouldFormat(Run(s, msgs)) <==> msgs[i].code != ""
    ensures ShouldFormat(Run(s, msgs)) ==> RenderedBlock(Run(s, msgs)) == CodeBlock(msgs[i].code, ToClass(msgs[k].language))
  {
    RunLastCode(s, msgs, i);
    RunLastLanguage(s, msgs, k);
  }

  /** Without a dismissal storage is unchanged. */
  lemma {:induction false} RunStorageKeeps(storage: Storage, msgs: seq<Msg>)
    requires forall j :: 0 <= j < |msgs| ==> !msgs[j].HideInitMessage?
    ensures RunStorage(storage, msgs) == storage
    decreases |msgs|
  {
    if msgs != [] {
      assert forall j :: 0 <= j < |msgs[1..]| ==> msgs[1..][j] == msgs[j + 1];
      RunStorageKeeps(Persist(storage, msgs[0]), msgs[1..]);
    }
  }

  /** After a session, the next session shows the intro exactly when the last dismissal
      was not "don't show again". */
  lemma {:induction false} RunStorageLastDismissal(storage: Storage, msgs: seq<Msg>, i: nat)
    requires i < |msgs| && msgs[i].HideInitMessage?
    requires forall j :: i < j < |msgs| ==> !msgs[j].HideInitMessage?
    ensures Restore(RunStorage(storage, msgs), StateKey) == Some(StoredState(Some(!msgs[i].dontShowAgain)))
    ensures InitialState(Restore(RunStorage(storage, msgs), StateKey)).showInfo == !msgs[i].dontShowAgain
    decreases |msgs|
  {
    if i == 0 {
      assert forall j :: 0 <= j < |msgs[1..]| ==> msgs[1..][j] == msgs[j + 1];
      RunStorageKeeps(Persist(storage, msgs[0]), msgs[1..]);
    } else {
      assert forall j :: i - 1 < j < |msgs[1..]| ==> msgs[1..][j] == msgs[j + 1];
      RunStorageLastDismissal(Persist(storage, msgs[0]), msgs[1..], i - 1);
    }
  }

  // ---------------------------------------------------------------------------
  // The component
  // ---------------------------------------------------------------------------

  class App {
    /** Local storage, restored from and written to under `StateKey`. */
    var storage: Storage
    var state: State
    /** Every call of the external highlighter, with the code block it rewrote. */
    ghost var highlights: seq<CodeBlock>
    /** Number of highlighter output nodes (`div.dp-highlighter`) in the document. */
    ghost var overlays: nat

    /** Re-highlighting never leaves two overlays behind. */
    ghost predicate Valid()
      reads this
    {
      overlays <= 1
    }

    /** `create`: seeds the state from storage. */
    constructor (storage: Storage)
      ensures Valid()
      ensures this.storage == storage
      ensures state == InitialState(Restore(storage, StateKey))
      ensures highlights == [] && overlays == 0
    {
      var stored := Restore(storage, StateKey);
      var state := State(true, "", None);
      if stored.Some? {
        if stored.value.showInfo.Some? {
          state := state.(showInfo := stored.value.showInfo.value);
        }
      }
      this.storage := storage;
      this.state := state;
      highlights := [];
      overlays := 0;
    }

    /** `change`: the component has no properties, so it never re-renders for them. */
    method Change() returns (shouldRender: bool)
      ensures !shouldRender
    {
      shouldRender := false;
    }

    /** `update`: handles one message and always asks for a re-render. */
    method Update(msg: Msg) returns (shouldRender: bool)
      requires Valid()
      modifies this`state, this`storage
      ensures Valid()
      ensures state == Transition(old(state), msg)
      ensures storage == Persist(old(storage), msg)
      ensures shouldRender
    {
      match msg
      case HideInitMessage(dontShowAgain) =>
        state := state.(showInfo := false);
        var stored := Restore(storage, StateKey);
        if stored.Some? {
          var record := stored.value.(showInfo := Some(!dontShowAgain));
          storage := storage[StateKey := Some(record)];
        } else {
          var record := StoredState(Some(!dontShowAgain));
          storage := storage[StateKey := Some(record)];
        }
        shouldRender := true;
      case ChooseLangauge(language) =>
        state := state.(programmingLanguage := Some(language));
        shouldRender := true;
      case InputCode(code) =>
        state := state.(code := code);
        shouldRender := true;
    }

    /** `rendered`: the post-render hook. */
    method Rendered(firstRender: bool)
      requires Valid()
      modifies this`highlights, this`overlays
      ensures Valid()
      ensures highlights == old(highlights) + (if ShouldFormat(state) then [RenderedBlock(state)] else [])
      ensures ShouldFormat(state) ==> overlays == 1
      ensures !ShouldFormat(state) ==> overlays == old(overlays)
    {
      if state.code != "" && state.programmingLanguage.Some? {
        FormatCode();
      }
    }

    /** `format_code`: removes the previous highlighter output, then calls the
        highlighter, which rewrites the page's one code block into a new overlay. */
    method FormatCode()
      requires Valid()
      modifies this`highlights, this`overlays
      ensures Valid()
      ensures highlights == old(highlights) + [RenderedBlock(state)]
      ensures overlays == 1
    {
      if overlays > 0 {
        overlays := overlays - 1;
      }
      highlights := highlights + [RenderedBlock(state)];
      overlays := overlays + 1;
    }
  }

  /** A session that dismisses the intro, followed by a fresh session on the same
      storage: the intro is shown again exactly when "don't show again" was not chosen. */
  method RestartAfterDismissal(storage: Storage, dontShowAgain: bool) returns (showInfo: bool)
    ensures showInfo == !dontShowAgain
  {
    var first := new App(storage);
    var _ := first.Update(HideInitMessage(dontShowAgain));
    var second := new App(first.storage);
    showInfo := second.state.showInfo;
  }

  /** First visit: empty storage, dismiss with "don't show again", pick Python, type a
      line, re-rendering after each message as the framework does. */
  method FirstVisit() returns (stored: Option<StoredState>, ghost calls: seq<CodeBlock>, showInfo: bool)
    ensures stored == Some(StoredState(Some(false)))
    ensures calls == [CodeBlock("print(1)", "python")]
    ensures !showInfo
  {
    var app := new App(map[]);
    assert app.state.showInfo;
    var render := app.Update(HideInitMessage(true));
    app.Rendered(false);
    render := app.Update(ChooseLangauge(Python));
    app.Rendered(false);
    render := app.Update(InputCode("print(1)"));
    app.Rendered(false);
    stored := Restore(app.storage, StateKey);
    calls := app.highlights;
    showInfo := app.state.showInfo;
  }
}
