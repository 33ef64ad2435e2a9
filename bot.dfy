/** The Gemini-backed bot of models/bot.py: model selection, the system
    prompt built from the admin's settings and knowledge files, and the
    per-chat state kept between replies. The Gemini client, the chat
    session inside it and the files on disk are inputs; the chat-state files
    (bin/chat/<id>.chatpl) are a map from chat id to state. */
module BotModel {
  import opened Text

  datatype Result<T> = Ok(value: T) | Err(msg: string)

  /** A Gemini model's settings in `google_models`. */
  datatype ModelConfig = ModelConfig(supportsImages: bool, maxTokens: int, temperature: real,
                                     inputPrice: real, outputPrice: real)

  /** `google_models`: the two supported models share their settings. */
  const GOOGLE_MODELS: map<string, ModelConfig> :=
    map["gemini-2.5-flash" := ModelConfig(true, 8192, 0.7, 0.10, 0.40),
        "gemini-2.0-flash" := ModelConfig(true, 8192, 0.7, 0.10, 0.40)]

  /** The model key used when the settings name none, and when a stored
      chat names none. */
  const DEFAULT_MODEL: string := "gemini_2.0_flash"

  /** `_get_google_model_name`: a bot key with its underscores as dashes. */
  function GoogleModelName(key: string): (r: string)
    ensures |r| == |key| && '_' !in r
    ensures forall i :: 0 <= i < |key| ==> r[i] == (if key[i] == '_' then '-' else key[i])
  {
    ReplaceCharAt(key, '_', '-');
    ReplaceAll(key, "_", "-")
  }

  /** The conversion is idempotent, and undoes exactly the dashes-to-
      underscores spelling of a model name without underscores. */
  lemma GoogleModelNameRoundTrip(name: string)
    requires '_' !in name
    ensures GoogleModelName(name) == name
    ensures GoogleModelName(GoogleModelName(name)) == GoogleModelName(name)
    ensures GoogleModelName(ReplaceAll(name, "-", "_")) == name
  {
    ReplaceCharAt(name, '-', '_');
    var u := ReplaceAll(name, "-", "_");
    assert |GoogleModelName(u)| == |name|;
    forall i | 0 <= i < |name| ensures GoogleModelName(u)[i] == name[i] {
      assert name[i] != '_';
    }
  }

  /** `_set_bot` accepts a key whose model name is a known model. */
  predicate Supported(key: string)
  {
    GoogleModelName(key) in GOOGLE_MODELS
  }

  /** The default key names gemini-2.0-flash. */
  lemma DefaultSupported()
    ensures GoogleModelName(DEFAULT_MODEL) == "gemini-2.0-flash"
    ensures Supported(DEFAULT_MODEL)
  {
    var r := GoogleModelName(DEFAULT_MODEL);
    assert r == "gemini-2.0-flash" by {
      forall i | 0 <= i < 16 ensures r[i] == "gemini-2.0-flash"[i] {
      }
    }
  }

  // ---- The system prompt --------------------------------------------------------

  /** An admin's `settings`: the `prompt` and `languages` keys when present. */
  datatype Admin = Admin(adminId: Option<string>, prompt: Option<string>, languages: Option<seq<string>>)

  const LANGUAGE_RULE: string :=
    "\n\nOnly respond to user if the language is in the following, and respond in the user's language: "

  /** The system prompt `create_chat` builds: the admin's prompt (else the
      base prompt), then the language rule listing the admin's languages
      (else English), joined by ", ". */
  function SystemPrompt(admin: Option<Admin>, basePrompt: string): (r: string)
  {
    var prompt := if admin.Some? && admin.value.prompt.Some? then admin.value.prompt.value else basePrompt;
    var languages := if admin.Some? && admin.value.languages.Some? then admin.value.languages.value else ["English"];
    prompt + LANGUAGE_RULE + Join(languages, ", ")
  }

  /** The prompt starts with the admin's prompt, or the base prompt without
      one, and names every allowed language. */
  lemma SystemPromptContents(admin: Option<Admin>, basePrompt: string)
    ensures var prompt := if admin.Some? && admin.value.prompt.Some? then admin.value.prompt.value else basePrompt;
            StartsWith(SystemPrompt(admin, basePrompt), prompt + LANGUAGE_RULE)
    ensures var languages := if admin.Some? && admin.value.languages.Some? then admin.value.languages.value else ["English"];
            forall k :: 0 <= k < |languages| ==> Contains(SystemPrompt(admin, basePrompt), languages[k])
  {
    var prompt := if admin.Some? && admin.value.prompt.Some? then admin.value.prompt.value else basePrompt;
    var languages := if admin.Some? && admin.value.languages.Some? then admin.value.languages.value else ["English"];
    var head := prompt + LANGUAGE_RULE;
    var joined := Join(languages, ", ");
    assert SystemPrompt(admin, basePrompt) == head + joined;
    assert (head + joined)[..|head|] == head;
    forall k | 0 <= k < |languages| ensures Contains(head + joined, languages[k]) {
      JoinContainsPart(languages, ", ", k);
      ContainsSuffix(head, joined, languages[k]);
    }
  }

  /** Text found in a suffix is found in the whole. */
  lemma {:induction false} ContainsSuffix(a: string, b: string, p: string)
    requires Contains(b, p)
    ensures Contains(a + b, p)
    decreases |a|
  {
    if |a| > 0 {
      ContainsSuffix(a[1..], b, p);
      assert (a + b)[1..] == a[1..] + b;
    } else {
      assert a + b == b;
    }
  }

  // ---- Knowledge files ------------------------------------------------------------

  /** A file of the admin's `files` directory: its name, and its content when
      it can be opened (as an image, or as UTF-8 text). */
  datatype FileEntry = FileEntry(name: string, content: Option<string>)

  /** A file of the admin's `db` directory: the rows of its `data` list, each
      a list of key/value pairs, when it parses as JSON. */
  datatype DbFile = DbFile(name: string, data: Option<seq<seq<(string, string)>>>)

  /** `os.path.splitext(name)[1]` for a bare file name: from the last dot, if
      some character before it is not a dot; otherwise empty. */
  function Extension(name: string): (r: string)
    ensures r == [] || (r[0] == '.' && '.' !in r[1..])
  {
    var d := LastDot(name);
    if d >= 0 && (exists j :: 0 <= j < d && name[j] != '.') then name[d..] else ""
  }

  function LastDot(s: string): (r: int)
    ensures -1 <= r < |s| && (r >= 0 ==> s[r] == '.')
    ensures forall j :: r < j < |s| ==> s[j] != '.'
    decreases |s|
  {
    if |s| == 0 then -1 else if s[|s| - 1] == '.' then |s| - 1 else LastDot(s[..|s| - 1])
  }
  /** The extension is empty exactly when every dot of the name has only
      dots before it; otherwise it is the name's suffix from its last dot,
      with some other character before that dot. */
  lemma ExtensionSpec(name: string)
    ensures var r := Extension(name);
      r != [] ==>
        |r| <= |name| && r == name[|name| - |r|..] && r[0] == '.' && '.' !in r[1..]
        && exists j :: 0 <= j < |name| - |r| && name[j] != '.'
    ensures Extension(name) == [] <==>
      forall i, j :: 0 <= j < i < |name| && name[i] == '.' ==> name[j] == '.'
  {
    var d := LastDot(name);
    if i, j :| 0 <= j < i < |name| && name[i] == '.' && name[j] != '.' {
      assert d >= i;
      assert exists k :: 0 <= k < d && name[k] != '.';
    }
  }


  const IMAGE_EXTENSIONS: set<string> := {".jpg", ".jpeg", ".png", ".gif", ".webp"}

  predicate IsImage(f: FileEntry)
  {
    Lower(Extension(f.name)) in IMAGE_EXTENSIONS && f.content.Some?
  }

  predicate IsText(f: FileEntry)
  {
    Lower(Extension(f.name)) == ".txt" && f.content.Some?
  }

  /** The source URL a text file is named after: '*' stands for '/', and the
      ".txt" is dropped. */
  function UrlOf(name: string): string
  {
    ReplaceAll(ReplaceAll(name, "*", "/"), ".txt", "")
  }

  /** The two prompt parts of a readable text file. */
  function TextParts(f: FileEntry): seq<string>
    requires f.content.Some?
  {
    var url := UrlOf(f.name);
    ["<url>" + url + "</url>", "<file url='" + url + "'>" + f.content.value + "</file>"]
  }

  /** The text parts of the `files` directory, in listing order. */
  function FileTexts(files: seq<FileEntry>): seq<string>
    decreases |files|
  {
    if |files| == 0 then []
    else
      var f := files[|files| - 1];
      FileTexts(files[..|files| - 1])
      + (if !IsImage(f) && IsText(f) then TextParts(f) else [])
  }

  function FileImages(files: seq<FileEntry>): seq<string>
    decreases |files|
  {
    if |files| == 0 then []
    else
      var f := files[|files| - 1];
      FileImages(files[..|files| - 1]) + (if IsImage(f) then [f.name] else [])
  }

  /** The rows of a db file as "key : value" lines. */
  function RowLines(rows: seq<seq<(string, string)>>): seq<string>
    decreases |rows|
  {
    if |rows| == 0 then []
    else RowLines(rows[..|rows| - 1]) + PairLines(rows[|rows| - 1])
  }

  function PairLines(row: seq<(string, string)>): seq<string>
    decreases |row|
  {
    if |row| == 0 then [] else PairLines(row[..|row| - 1]) + [row[|row| - 1].0 + " : " + row[|row| - 1].1]
  }

  /** The parts of the `db` directory: one per parsed file whose lines are
      not empty. */
  function DbTexts(dbs: seq<DbFile>): seq<string>
    decreases |dbs|
  {
    if |dbs| == 0 then []
    else
      var d := dbs[|dbs| - 1];
      DbTexts(dbs[..|dbs| - 1])
      + (if d.data.Some? && Join(RowLines(d.data.value), "\n") != "" then [Join(RowLines(d.data.value), "\n")] else [])
  }

  /** `_process_files`: nothing without an admin or a `files` directory;
      otherwise the text parts of `files` then those of `db`, joined by
      newlines, and the images of `files`. */
  function ProcessFiles(adminId: Option<string>, files: Option<seq<FileEntry>>, db: Option<seq<DbFile>>)
    : (string, seq<string>)
  {
    if adminId.None? || adminId.value == "" || files.None? then ("", [])
    else (Join(FileTexts(files.value) + (if db.Some? then DbTexts(db.value) else []), "\n"),
          FileImages(files.value))
  }

  /** Exactly the images that open are attached, each once per listing. */
  lemma {:induction false} FileImagesExact(files: seq<FileEntry>, n: string)
    ensures n in FileImages(files) <==> exists f :: f in files && f.name == n && IsImage(f)
    decreases |files|
  {
    if |files| > 0 {
      var init := files[..|files| - 1];
      FileImagesExact(init, n);
      assert files == init + [files[|files| - 1]];
      if n in FileImages(init) {
        var f :| f in init && f.name == n && IsImage(f);
        assert f in files;
      }
    }
  }

  /** Every readable text file, not taken for an image, is tagged with its
      URL in the file parts. */
  lemma {:induction false} TextFileTagged(files: seq<FileEntry>, i: int)
    requires 0 <= i < |files| && IsText(files[i]) && !IsImage(files[i])
    ensures "<url>" + UrlOf(files[i].name) + "</url>" in FileTexts(files)
    decreases |files|
  {
    if i < |files| - 1 {
      assert files[..|files| - 1][i] == files[i];
      TextFileTagged(files[..|files| - 1], i);
    } else {
      assert TextParts(files[i])[0] == "<url>" + UrlOf(files[i].name) + "</url>";
    }
  }

  /** ... and so it reaches the prompt text. */
  lemma KnowledgeReachesPrompt(adminId: string, files: seq<FileEntry>, db: Option<seq<DbFile>>, i: int)
    requires adminId != "" && 0 <= i < |files| && IsText(files[i]) && !IsImage(files[i])
    ensures Contains(ProcessFiles(Some(adminId), Some(files), db).0, "<url>" + UrlOf(files[i].name) + "</url>")
  {
    var parts := FileTexts(files) + (if db.Some? then DbTexts(db.value) else []);
    TextFileTagged(files, i);
    var k :| 0 <= k < |FileTexts(files)| && FileTexts(files)[k] == "<url>" + UrlOf(files[i].name) + "</url>";
    assert parts[k] == FileTexts(files)[k];
    JoinContainsPart(parts, "\n", k);
  }

  // ---- Chat state -------------------------------------------------------------------

  /** What a chat-state file holds: the model key and model name it was last
      saved with (absent in files from before they were recorded), the model,
      the system instruction, the generation limits and the image history. */
  datatype ChatState = ChatState(modelName: Option<string>, modelConfig: Option<string>, model: string,
                                 systemInstruction: string, maxTokens: int, temperature: real,
                                 history: seq<string>)

  /** `_init_google_chat` plus the model fields `create_chat` adds. */
  function NewChatState(activeBotName: string, sysPrompt: string, text: string, images: seq<string>): ChatState
    requires Supported(activeBotName)
  {
    var actual := GoogleModelName(activeBotName);
    var cfg := GOOGLE_MODELS[actual];
    ChatState(Some(activeBotName), Some(actual), actual, sysPrompt + "\n" + text, cfg.maxTokens,
              cfg.temperature, if cfg.supportsImages && |images| > 0 then images else [])
  }

  /** The key `_load_chat` selects for a stored state. */
  function StoredKey(st: ChatState): string
  {
    if st.modelName.Some? then st.modelName.value else DEFAULT_MODEL
  }

  class Bot {
    var activeBotName: string
    var basePrompt: string
    var sysPrompt: string
    var store: map<string, ChatState>

    /** The active key is always a supported one. */
    ghost predicate Valid()
      reads this
    {
      Supported(activeBotName)
    }

    constructor Start(name: string, basePrompt: string)
      requires Supported(name)
      ensures Valid() && activeBotName == name && this.basePrompt == basePrompt && store == map[]
    {
      activeBotName := name;
      this.basePrompt := basePrompt;
      sysPrompt := "";
      store := map[];
    }

    /** `Bot(name, app)`: the settings' model, else the default; an
        unsupported one raises, here null. */
    static method Create(model: Option<string>, basePrompt: string) returns (b: Bot?)
      ensures var key := if model.Some? then model.value else DEFAULT_MODEL;
        (b == null <==> !Supported(key))
        && (b != null ==> fresh(b) && b.Valid() && b.activeBotName == key && b.basePrompt == basePrompt
                          && b.store == map[])
    {
      var key := if model.Some? then model.value else DEFAULT_MODEL;
      if GoogleModelName(key) !in GOOGLE_MODELS {
        return null;
      }
      b := new Bot.Start(key, basePrompt);
    }

    /** `_set_bot`: an unsupported key raises and changes nothing. */
    method SetBot(name: string) returns (r: Result<()>)
      modifies this
      ensures r.Ok? <==> Supported(name)
      ensures r.Ok? ==> activeBotName == name
      ensures r.Err? ==> activeBotName == old(activeBotName) && r.msg == "Unsupported model: " + name
      ensures basePrompt == old(basePrompt) && sysPrompt == old(sysPrompt) && store == old(store)
    {
      var actual := GoogleModelName(name);
      if actual !in GOOGLE_MODELS {
        return Err("Unsupported model: " + name);
      }
      activeBotName := name;
      return Ok(());
    }

    /** `create_chat`: the system prompt for the admin, the knowledge of
        their files, and a fresh state saved under `id`. */
    method CreateChat(id: string, admin: Option<Admin>, files: Option<seq<FileEntry>>, db: Option<seq<DbFile>>)
      requires Valid()
      modifies this
      ensures Valid() && activeBotName == old(activeBotName) && basePrompt == old(basePrompt)
      ensures sysPrompt == SystemPrompt(admin, basePrompt)
      ensures var (text, images) := ProcessFiles(if admin.Some? then admin.value.adminId else None, files, db);
        store == old(store)[id := NewChatState(activeBotName, sysPrompt, text, images)]
    {
      var processed := ProcessFilesOf(if admin.Some? then admin.value.adminId else None, files, db);
      var (text, images) := processed;
      sysPrompt := SystemPrompt(admin, basePrompt);
      store := store[id := NewChatState(activeBotName, sysPrompt, text, images)];
    }

    /** `_load_chat`: a chat without a state file is an error; otherwise the
        stored key (the default for old files) becomes active, which fails
        for an unsupported key. */
    method LoadChat(id: string) returns (r: Result<ChatState>)
      requires Valid()
      modifies this
      ensures Valid()
      ensures id !in old(store) ==> r == Err("No chat session found for id " + id) && activeBotName == old(activeBotName)
      ensures id in old(store) && Supported(StoredKey(old(store)[id])) ==>
        r == Ok(old(store)[id]) && activeBotName == StoredKey(old(store)[id])
      ensures id in old(store) && !Supported(StoredKey(old(store)[id])) ==>
        r.Err? && activeBotName == old(activeBotName)
      ensures basePrompt == old(basePrompt) && sysPrompt == old(sysPrompt) && store == old(store)
    {
      if id !in store {
        return Err("No chat session found for id " + id);
      }
      var st := store[id];
      var selected := SetBot(StoredKey(st));
      if selected.Err? {
        return Err(selected.msg);
      }
      return Ok(st);
    }

    /** `_save_chat`: the state is stamped with the active model and
        written under `id`. */
    method SaveChat(st: ChatState, id: string)
      requires Valid()
      modifies this
      ensures Valid() && activeBotName == old(activeBotName)
      ensures store == old(store)[id := st.(modelName := Some(activeBotName),
                                             modelConfig := Some(GoogleModelName(activeBotName)))]
      ensures basePrompt == old(basePrompt) && sysPrompt == old(sysPrompt)
    {
      store := store[id := st.(modelName := Some(activeBotName), modelConfig := Some(GoogleModelName(activeBotName)))];
    }

    /** `responed`: the chat's state is loaded, the reply the chat session
        gave (`reply`) is returned, and the state saved again. */
    method Respond(input: string, id: string, reply: string) returns (r: Result<string>)
      requires Valid()
      modifies this
      ensures Valid()
      ensures r.Ok? <==> id in old(store) && Supported(StoredKey(old(store)[id]))
      ensures r.Ok? ==> r.value == reply && activeBotName == StoredKey(old(store)[id])
                        && id in store && store[id].modelName == Some(activeBotName)
      ensures r.Ok? ==> store == old(store)[id := old(store)[id].(modelName := Some(activeBotName),
                                                                  modelConfig := Some(GoogleModelName(activeBotName)))]
      ensures r.Err? ==> store == old(store) && activeBotName == old(activeBotName)
      ensures basePrompt == old(basePrompt) && sysPrompt == old(sysPrompt)
    {
      var loaded := LoadChat(id);
      if loaded.Err? {
        return Err(loaded.msg);
      }
      SaveChat(loaded.value, id);
      return Ok(reply);
    }

    /** `_process_files`. */
    static method ProcessFilesOf(adminId: Option<string>, files: Option<seq<FileEntry>>, db: Option<seq<DbFile>>)
      returns (r: (string, seq<string>))
      ensures r == ProcessFiles(adminId, files, db)
    {
      if adminId.None? || adminId.value == "" || files.None? {
        return ("", []);
      }
      var fileTexts, images := ScanFiles(files.value);
      var dbTexts: seq<string> := [];
      if db.Some? {
        dbTexts := ScanDb(db.value);
      }
      assert dbTexts == (if db.Some? then DbTexts(db.value) else []);
      var parts := fileTexts + dbTexts;
      r := (Join(parts, "\n"), images);
    }

    /** The loop over the `files` directory: images by extension, text files
        as two tagged parts; a file that cannot be opened is skipped. */
    static method ScanFiles(fs: seq<FileEntry>) returns (textContent: seq<string>, images: seq<string>)
      ensures textContent == FileTexts(fs) && images == FileImages(fs)
    {
      textContent := [];
      images := [];
      var i := 0;
      while i < |fs|
        invariant 0 <= i <= |fs|
        invariant textContent == FileTexts(fs[..i]) && images == FileImages(fs[..i])
      {
        assert fs[..i + 1][..i] == fs[..i];
        var f := fs[i];
        var ext := Lower(Extension(f.name));
        if ext in IMAGE_EXTENSIONS {
          if f.content.Some? {
            images := images + [f.name];
          }
        } else if ext == ".txt" {
          if f.content.Some? {
            var url := UrlOf(f.name);
            textContent := textContent + ["<url>" + url + "</url>", "<file url='" + url + "'>" + f.content.value + "</file>"];
          }
        }
        i := i + 1;
      }
      assert fs[..i] == fs;
    }

    /** The loop over the `db` directory: a file that parses contributes its
        lines, unless there are none. */
    static method ScanDb(ds: seq<DbFile>) returns (texts: seq<string>)
      ensures texts == DbTexts(ds)
    {
      texts := [];
      var j := 0;
      while j < |ds|
        invariant 0 <= j <= |ds|
        invariant texts == DbTexts(ds[..j])
      {
        assert ds[..j + 1][..j] == ds[..j];
        if ds[j].data.Some? {
          var lines := RowLinesOf(ds[j].data.value);
          var joined := Join(lines, "\n");
          if joined != "" {
            texts := texts + [joined];
          }
        }
        j := j + 1;
      }
      assert ds[..j] == ds;
    }

    /** The generator `f"{k} : {v}" for d in data for k, v in d.items()`. */
    static method RowLinesOf(rows: seq<seq<(string, string)>>) returns (lines: seq<string>)
      ensures lines == RowLines(rows)
    {
      lines := [];
      var i := 0;
      while i < |rows|
        invariant 0 <= i <= |rows|
        invariant lines == RowLines(rows[..i])
      {
        assert rows[..i + 1][..i] == rows[..i];
        var row := rows[i];
        var j := 0;
        ghost var before := lines;
        while j < |row|
          invariant 0 <= j <= |row|
          invariant lines == before + PairLines(row[..j])
        {
          assert row[..j + 1][..j] == row[..j];
          lines := lines + [row[j].0 + " : " + row[j].1];
          j := j + 1;
        }
        assert row[..j] == row;
        i := i + 1;
      }
      assert rows[..i] == rows;
    }
  }

  /** Saving a chat and loading it again selects the model it was saved
      with: a reply never switches a chat's model. */
  lemma SaveThenLoadKeepsModel(st: ChatState, key: string)
    requires Supported(key)
    ensures StoredKey(st.(modelName := Some(key), modelConfig := Some(GoogleModelName(key)))) == key
  {
  }
}
