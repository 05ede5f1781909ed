/** Locating prompt files with a localized-then-English fallback
    (auto-claude/prompts_pkg/prompt_loader.py). The file system is a set of
    existing paths, some of which are directories; paths are POSIX strings
    joined as `pathlib` joins them. */
module PromptLoader {
  import opened Common
  import opened Strings

  const LanguageVar: string := "PROMPT_LANGUAGE"
  const DefaultLanguage: string := "zh-CN"
  const English: string := "en"
  const PromptSuffix: string := ".md"

  datatype FileSystem = FileSystem(existing: set<string>, directories: set<string>) {
    predicate Exists(path: string) {
      path in existing || path in directories
    }
    predicate IsDir(path: string) {
      path in directories
    }
  }

  /** The `prompts` folder: under the given base directory, else under the
      parent of the package directory (`packageParent`). */
  function PromptsDir(baseDir: Option<string>, packageParent: string): string {
    match baseDir
    case None => PyPathJoin(packageParent, "prompts")
    case Some(dir) => PyPathJoin(dir, "prompts")
  }

  /** `os.environ.get("PROMPT_LANGUAGE", "zh-CN")`: a variable set to the
      empty string is kept as it is. */
  function Language(env: map<string, string>): (language: string)
    ensures LanguageVar !in env ==> language == DefaultLanguage
  {
    if LanguageVar in env then env[LanguageVar] else DefaultLanguage
  }

  /** The prompt's file name, with `.md` appended unless it already ends in
      it. */
  function WithSuffix(promptName: string): (name: string)
    ensures EndsWith(name, PromptSuffix)
    ensures EndsWith(promptName, PromptSuffix) ==> name == promptName
    ensures !EndsWith(promptName, PromptSuffix) ==> name == promptName + PromptSuffix
  {
    if EndsWith(promptName, PromptSuffix) then promptName else promptName + PromptSuffix
  }

  /** Adding the suffix twice is adding it once. */
  lemma WithSuffixIdempotent(promptName: string)
    ensures WithSuffix(WithSuffix(promptName)) == WithSuffix(promptName)
  {
  }

  /** `prompts/<language>/<name>` */
  function LocalizedPath(prompts: string, language: string, name: string): string {
    PyPathJoin(PyPathJoin(prompts, language), name)
  }

  /** `prompts/<name>` */
  function DefaultPath(prompts: string, name: string): string {
    PyPathJoin(prompts, name)
  }

  /** The paths `get_prompt_path` looks at, in order: the localized one
      unless the language is English, then the default one. */
  function TriedPaths(prompts: string, language: string, name: string): (tried: seq<string>)
    ensures |tried| == (if language == English then 1 else 2)
    ensures tried[|tried| - 1] == DefaultPath(prompts, name)
    ensures language != English ==> tried[0] == LocalizedPath(prompts, language, name)
  {
    (if language != English then [LocalizedPath(prompts, language, name)] else [])
    + [DefaultPath(prompts, name)]
  }

  /** The text of the `FileNotFoundError`. */
  function NotFoundMessage(name: string, tried: seq<string>): string {
    "Prompt file '" + name + "' not found.\n" + "Tried paths:\n"
    + Join(seq(|tried|, i requires 0 <= i < |tried| => "  - " + tried[i]), "\n")
  }

  datatype PromptNotFound = PromptNotFound(message: string, tried: seq<string>)

  /** `get_prompt_path`: the localized path when the language is not
      English and it exists, else the default path when it exists, else the
      error naming every tried path. */
  function GetPromptPath(promptName: string, baseDir: Option<string>, packageParent: string,
                         env: map<string, string>, fs: FileSystem): (r: Result<string, PromptNotFound>)
    ensures r.Ok? ==> fs.Exists(r.value)
    ensures r.Err? ==> r.error.tried == TriedPaths(PromptsDir(baseDir, packageParent), Language(env), WithSuffix(promptName))
  {
    var prompts := PromptsDir(baseDir, packageParent);
    var language := Language(env);
    var name := WithSuffix(promptName);
    var localized := LocalizedPath(prompts, language, name);
    var default := DefaultPath(prompts, name);
    if language != English && fs.Exists(localized) then Ok(localized)
    else if fs.Exists(default) then Ok(default)
    else
      var tried := TriedPaths(prompts, language, name);
      Err(PromptNotFound(NotFoundMessage(name, tried), tried))
  }

  /** The result is the first tried path that exists; when none exists the
      error lists all of them, one for English and two otherwise. */
  lemma GetPromptPathFirstExisting(promptName: string, baseDir: Option<string>, packageParent: string,
                                   env: map<string, string>, fs: FileSystem)
    ensures var name := WithSuffix(promptName);
      var tried := TriedPaths(PromptsDir(baseDir, packageParent), Language(env), name);
      var first := FirstIndexWhere(tried, (p: string) => fs.Exists(p));
      GetPromptPath(promptName, baseDir, packageParent, env, fs) ==
        if first.Some? then Ok(tried[first.value])
        else Err(PromptNotFound(NotFoundMessage(name, tried), tried))
  {
    var tried := TriedPaths(PromptsDir(baseDir, packageParent), Language(env), WithSuffix(promptName));
    var present := (p: string) => fs.Exists(p);
    if |tried| == 2 && !present(tried[0]) && present(tried[1]) {
      FirstIndexWhereAt(tried, present, 1);
    }
  }

  /** With the language set to English the localized path is never
      consulted: two file systems that agree on the default path give the
      same result. */
  lemma EnglishIgnoresLocalized(promptName: string, baseDir: Option<string>, packageParent: string,
                                env: map<string, string>, fs: FileSystem, other: FileSystem)
    requires Language(env) == English
    requires var prompts := PromptsDir(baseDir, packageParent);
      fs.Exists(DefaultPath(prompts, WithSuffix(promptName))) == other.Exists(DefaultPath(prompts, WithSuffix(promptName)))
    ensures GetPromptPath(promptName, baseDir, packageParent, env, fs)
         == GetPromptPath(promptName, baseDir, packageParent, env, other)
  {
  }

  /** `get_prompts_dir`: the localized folder when the language is not
      English and that folder is a directory, else the `prompts` folder. */
  function GetPromptsDir(baseDir: Option<string>, packageParent: string, env: map<string, string>,
                         fs: FileSystem): (dir: string)
    ensures var prompts := PromptsDir(baseDir, packageParent);
      dir == prompts || (dir == PyPathJoin(prompts, Language(env)) && Language(env) != English && fs.IsDir(dir))
    ensures var localized := PyPathJoin(PromptsDir(baseDir, packageParent), Language(env));
      Language(env) != English && fs.IsDir(localized) ==> dir == localized
  {
    var prompts := PromptsDir(baseDir, packageParent);
    var language := Language(env);
    if language != English && fs.Exists(PyPathJoin(prompts, language)) && fs.IsDir(PyPathJoin(prompts, language))
    then PyPathJoin(prompts, language)
    else prompts
  }
}
