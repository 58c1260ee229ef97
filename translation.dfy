/**
 * The translation manager (internal/translation/translation.go): texts per
 * language code, loaded from the `.json` files of a directory, with a
 * fallback to the default language and then to the key.
 *
 * Reading the directory is an input (its entries, or an error); reading and
 * decoding one file is an input function from the file's name to its
 * key-to-text map or an error. The read-write lock and the `sync.Once`
 * singleton are not part of this model.
 */
module Translation {
  import opened Wrappers
  import Text

  type Texts = map<string, string>

  datatype DirEntry = DirEntry(name: string, isDir: bool)

  /** The manager's map after loading, and the error that ended loading if any. */
  datatype Loading = Loading(translations: map<string, Texts>, err: Option<string>)

  const DefaultLanguage: string := "en"

  /**
   * GetText: the requested language's text when it has a non-empty one, else
   * the default language's text when it has the key (even an empty text),
   * else the key itself.
   */
  function GetText(translations: map<string, Texts>, defaultLanguage: string, langCode: string, key: string): (r: string)
    ensures langCode in translations && key in translations[langCode] && translations[langCode][key] != "" ==>
      r == translations[langCode][key]
    ensures !(langCode in translations && key in translations[langCode] && translations[langCode][key] != "") ==>
      (defaultLanguage in translations && key in translations[defaultLanguage] ==> r == translations[defaultLanguage][key])
    ensures r == key <== !(langCode in translations && key in translations[langCode] && translations[langCode][key] != "")
                         && !(defaultLanguage in translations && key in translations[defaultLanguage])
    ensures r == "" ==> key == "" || (defaultLanguage in translations && key in translations[defaultLanguage] && translations[defaultLanguage][key] == "")
  {
    if langCode in translations && key in translations[langCode] && translations[langCode][key] != "" then translations[langCode][key]
    else if defaultLanguage in translations && key in translations[defaultLanguage] then translations[defaultLanguage][key]
    else key
  }

  /** Only plain files whose name ends in `.json` are translations. */
  predicate IsTranslationFile(e: DirEntry)
  {
    !e.isDir && Text.HasSuffix(e.name, ".json")
  }

  /** The language a translation file holds: its name without `.json`. */
  function LanguageOf(e: DirEntry): string
  {
    Text.TrimSuffix(e.name, ".json")
  }

  /** The directory's files loaded in order; the first unreadable translation file stops the loading. */
  function LoadFiles(translations: map<string, Texts>, files: seq<DirEntry>, read: string -> Result<Texts, string>): Loading
  {
    if files == [] then Loading(translations, None)
    else
      var n := |files| - 1;
      var prev := LoadFiles(translations, files[..n], read);
      if prev.err.Some? || !IsTranslationFile(files[n]) then prev
      else
        match read(files[n].name)
        case Err(e) => Loading(prev.translations, Some(e))
        case Ok(t) => Loading(prev.translations[LanguageOf(files[n]) := t], None)
  }

  /** InitTranslations. */
  function Init(translations: map<string, Texts>, defaultLanguage: string, dir: Result<seq<DirEntry>, string>,
                read: string -> Result<Texts, string>): Loading
  {
    match dir
    case Err(e) => Loading(translations, Some(e))
    case Ok(files) =>
      var l := LoadFiles(translations, files, read);
      if l.err.Some? then l
      else if defaultLanguage !in l.translations then Loading(l.translations, Some("default language translation not found"))
      else l
  }

  /** Loading succeeds exactly when every translation file reads. */
  lemma {:induction false} LoadFilesSucceeds(translations: map<string, Texts>, files: seq<DirEntry>, read: string -> Result<Texts, string>)
    ensures LoadFiles(translations, files, read).err.None? <==>
      forall i :: 0 <= i < |files| && IsTranslationFile(files[i]) ==> read(files[i].name).Ok?
  {
    if files != [] {
      var n := |files| - 1;
      LoadFilesSucceeds(translations, files[..n], read);
      assert forall i :: 0 <= i < n ==> files[..n][i] == files[i];
    }
  }

  /** Some translation file among `files` holds language `lang`. */
  predicate NamesLanguage(files: seq<DirEntry>, lang: string)
  {
    exists i :: 0 <= i < |files| && IsTranslationFile(files[i]) && LanguageOf(files[i]) == lang
  }

  /** A language is named by a list of files exactly when its prefix or its last file names it. */
  lemma NamesLanguageLast(files: seq<DirEntry>, lang: string)
    requires files != []
    ensures NamesLanguage(files, lang) <==>
      NamesLanguage(files[..|files| - 1], lang) || (IsTranslationFile(files[|files| - 1]) && LanguageOf(files[|files| - 1]) == lang)
  {
    var n := |files| - 1;
    if NamesLanguage(files, lang) {
      var i :| 0 <= i < |files| && IsTranslationFile(files[i]) && LanguageOf(files[i]) == lang;
      if i < n {
        assert files[..n][i] == files[i];
      }
    }
    if NamesLanguage(files[..n], lang) {
      var i :| 0 <= i < n && IsTranslationFile(files[..n][i]) && LanguageOf(files[..n][i]) == lang;
      assert files[i] == files[..n][i];
    }
  }

  /**
   * After a successful load the languages are the earlier ones plus one per
   * translation file, named by the file name without `.json`; directories
   * and other files are skipped.
   */
  lemma {:induction false} LoadFilesLanguages(translations: map<string, Texts>, files: seq<DirEntry>, read: string -> Result<Texts, string>,
                                              lang: string)
    requires LoadFiles(translations, files, read).err.None?
    ensures lang in LoadFiles(translations, files, read).translations <==>
      lang in translations || exists i :: 0 <= i < |files| && IsTranslationFile(files[i]) && LanguageOf(files[i]) == lang
  {
    if files != [] {
      var n := |files| - 1;
      var prev := LoadFiles(translations, files[..n], read);
      assert prev.err.None?;
      LoadFilesLanguages(translations, files[..n], read, lang);
      NamesLanguageLast(files, lang);
      assert NamesLanguage(files[..n], lang) <==> exists i :: 0 <= i < |files[..n]| && IsTranslationFile(files[..n][i]) && LanguageOf(files[..n][i]) == lang;
    }
  }

  /** A failed load ends there: the files after it change nothing. */
  lemma {:induction false} LoadFilesStops(translations: map<string, Texts>, files: seq<DirEntry>, k: nat, read: string -> Result<Texts, string>)
    requires k <= |files| && LoadFiles(translations, files[..k], read).err.Some?
    ensures LoadFiles(translations, files, read) == LoadFiles(translations, files[..k], read)
  {
    if k < |files| {
      var n := |files| - 1;
      assert files[..n][..k] == files[..k];
      LoadFilesStops(translations, files[..n], k, read);
    } else {
      assert files[..k] == files;
    }
  }

  /**
   * InitTranslations succeeds only with the default language loaded; when
   * the directory and every translation file read, it fails exactly when
   * the default language is neither loaded before nor among the files.
   */
  lemma InitRules(translations: map<string, Texts>, defaultLanguage: string, dir: Result<seq<DirEntry>, string>,
                  read: string -> Result<Texts, string>)
    ensures var r := Init(translations, defaultLanguage, dir, read);
      && (r.err.None? ==> defaultLanguage in r.translations)
      && (dir.Err? ==> r == Loading(translations, Some(dir.error)))
      && (dir.Ok? && (forall i :: 0 <= i < |dir.value| && IsTranslationFile(dir.value[i]) ==> read(dir.value[i].name).Ok?) ==>
            (r.err.None? <==> defaultLanguage in translations ||
                              exists i :: 0 <= i < |dir.value| && IsTranslationFile(dir.value[i]) && LanguageOf(dir.value[i]) == defaultLanguage))
  {
    if dir.Ok? {
      LoadFilesSucceeds(translations, dir.value, read);
      if LoadFiles(translations, dir.value, read).err.None? {
        LoadFilesLanguages(translations, dir.value, read, defaultLanguage);
      }
    }
  }

  class Manager {
    var translations: map<string, Texts>
    const defaultLanguage: string

    /** GetInstance's first call: no translations, English as the default. */
    constructor ()
      ensures translations == map[] && defaultLanguage == DefaultLanguage
    {
      translations := map[];
      defaultLanguage := DefaultLanguage;
    }

    /** InitTranslations: `dir` is what reading the directory gave, `read` reads and decodes one file by name. */
    method InitTranslations(dir: Result<seq<DirEntry>, string>, read: string -> Result<Texts, string>) returns (err: Option<string>)
      modifies this
      ensures Loading(translations, err) == Init(old(translations), defaultLanguage, dir, read)
    {
      if dir.Err? {
        return Some(dir.error);
      }
      var files := dir.value;
      var i := 0;
      while i < |files|
        invariant 0 <= i <= |files|
        invariant LoadFiles(old(translations), files[..i], read) == Loading(translations, None)
      {
        assert files[..i + 1][..i] == files[..i];
        if IsTranslationFile(files[i]) {
          var content := read(files[i].name);
          if content.Err? {
            LoadFilesStops(old(translations), files, i + 1, read);
            return Some(content.error);
          }
          translations := translations[LanguageOf(files[i]) := content.value];
        }
        i := i + 1;
      }
      assert files[..i] == files;
      if defaultLanguage !in translations {
        return Some("default language translation not found");
      }
      err := None;
    }
  }
}
