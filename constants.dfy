/**
 * The application's constant tables: models, languages, themes, the default
 * configuration, the retry policy and the prompt templates, with the facts about
 * them that the rest of the model relies on.
 */
module Constants {
  import opened Py
  import opened Wrappers

  /** Display name to model identifier, in the dictionary's insertion order. */
  const ClaudeModels: seq<(string, string)> := [
    ("Claude 3.5 Sonnet", "claude-3-5-sonnet-20241022"),
    ("Claude 3 Opus", "claude-3-opus-20240229"),
    ("Claude 3 Sonnet", "claude-3-sonnet-20240229"),
    ("Claude 3 Haiku", "claude-3-haiku-20240307")
  ]

  const DefaultModel: string := "claude-3-5-sonnet-20241022"
  const DefaultTemperature: real := 0.7
  const DefaultMaxTokens: int := 4096

  const ProgrammingLanguages: seq<string> := [
    "Python", "JavaScript", "TypeScript", "Java", "C++", "C#", "Go", "Rust",
    "PHP", "Ruby", "Swift", "Kotlin", "HTML/CSS", "SQL", "Shell", "Other"
  ]

  const DefaultLanguage: string := "Python"

  const Themes: seq<string> := ["System", "Dark", "Light"]
  const DefaultTheme: string := "System"

  // Keys of the configuration dictionary
  const ConfigApiKey: string := "api_key"
  const ConfigModel: string := "model"
  const ConfigTemperature: string := "temperature"
  const ConfigMaxTokens: string := "max_tokens"
  const ConfigTheme: string := "theme"
  const ConfigLanguage: string := "language"
  const ConfigWindowGeometry: string := "window_geometry"
  const ConfigHistoryEnabled: string := "history_enabled"
  const ConfigMaxHistory: string := "max_history_entries"

  /** The configuration a fresh installation starts with; the geometry string is
      the default window width 1200 and height 800 formatted as `WIDTHxHEIGHT`. */
  const DefaultConfig: map<string, Value> := map[
    ConfigApiKey := Str(""),
    ConfigModel := Str(DefaultModel),
    ConfigTemperature := Float(DefaultTemperature),
    ConfigMaxTokens := Int(DefaultMaxTokens),
    ConfigTheme := Str(DefaultTheme),
    ConfigLanguage := Str(DefaultLanguage),
    ConfigWindowGeometry := Str("1200x800"),
    ConfigHistoryEnabled := Bool(true),
    ConfigMaxHistory := Int(50)
  ]

  const ApiRetryAttempts: nat := 3
  /** Base delay between attempts, in seconds. */
  const ApiRetryDelay: nat := 1

  /** Template name to template text, in the dictionary's insertion order. */
  const CodeTemplates: seq<(string, string)> := [
    ("函数", FunctionTemplate),
    ("类", ClassTemplate),
    ("算法", AlgorithmTemplate),
    ("API", ApiTemplate),
    ("数据处理", DataTemplate)
  ]

  // The template texts
  const FunctionTemplate: string := "创建一个{language}函数，功能：{description}"
  const ClassTemplate: string := "创建一个{language}类，实现：{description}"
  const AlgorithmTemplate: string := "用{language}实现{description}算法"
  const ApiTemplate: string := "创建一个{language} API 端点：{description}"
  const DataTemplate: string := "用{language}处理数据：{description}"

  const LanguageField: string := "{language}"
  const DescriptionField: string := "{description}"

  // Entries of the error-message table
  const NoApiKeyMessage: string := "未找到 API Key，请在设置中配置您的 Claude API Key"
  const InvalidApiKeyMessage: string := "API Key 无效，请检查您的配置"
  const NetworkErrorMessage: string := "网络连接失败，请检查您的网络连接"
  const EmptyInputMessage: string := "请输入代码描述"

  /** The "api_error" entry, formatted with the failure detail. */
  function ApiErrorMessage(error: string): string {
    "API 调用失败：" + error
  }

  /** The model identifiers, in table order. */
  function ModelIds(): (ids: seq<string>)
    ensures |ids| == |ClaudeModels|
    ensures forall i :: 0 <= i < |ids| ==> ids[i] == ClaudeModels[i].1
  {
    seq(|ClaudeModels|, i requires 0 <= i < |ClaudeModels| => ClaudeModels[i].1)
  }

  /** The template text stored under `name`, if any. */
  function LookupTemplate(name: string): (t: Option<string>)
    ensures t.Some? <==> exists i :: 0 <= i < |CodeTemplates| && CodeTemplates[i].0 == name
    ensures t.Some? ==> exists i :: 0 <= i < |CodeTemplates| && CodeTemplates[i] == (name, t.value)
  {
    Find(CodeTemplates, name)
  }

  function Find(table: seq<(string, string)>, key: string): (r: Option<string>)
    ensures r.Some? <==> exists i :: 0 <= i < |table| && table[i].0 == key
    ensures r.Some? ==> exists i :: 0 <= i < |table| && table[i] == (key, r.value)
  {
    if table == [] then None
    else if table[0].0 == key then Some(table[0].1)
    else
      var r := Find(table[1..], key);
      assert forall i :: 1 <= i < |table| ==> table[i] == table[1..][i - 1];
      r
  }

  /** A template text split around its two fields: `pre{language}mid{description}post`. */
  datatype Shape = Shape(pre: string, mid: string, post: string)

  function Fill(s: Shape, language: string, description: string): string {
    s.pre + language + s.mid + description + s.post
  }

  predicate BraceFree(s: string) {
    '{' !in s && '}' !in s
  }

  /** `t` is the text of shape `s` with its two fields in place. */
  predicate ShapedBy(t: string, s: Shape) {
    t == Fill(s, LanguageField, DescriptionField) && BraceFree(s.pre) && BraceFree(s.mid) && BraceFree(s.post)
  }

  ghost predicate WellFormedTemplate(t: string) {
    exists s: Shape :: ShapedBy(t, s)
  }

  // ----- Facts about the tables -----

  /** The default language is listed, and so is "Other". */
  lemma LanguagesContainDefaults()
    ensures DefaultLanguage in ProgrammingLanguages
    ensures "Other" in ProgrammingLanguages
    ensures forall i, j :: 0 <= i < j < |ProgrammingLanguages| ==> ProgrammingLanguages[i] != ProgrammingLanguages[j]
  {
    assert ProgrammingLanguages[0] == DefaultLanguage;
    assert ProgrammingLanguages[15] == "Other";
  }

  /** The default model is one of the table's identifiers, and identifiers and
      display names are pairwise distinct, so either side determines the other. */
  lemma ModelTableConsistent()
    ensures DefaultModel in ModelIds()
    ensures forall i, j :: 0 <= i < j < |ClaudeModels| ==> ClaudeModels[i].1 != ClaudeModels[j].1
    ensures forall i, j :: 0 <= i < j < |ClaudeModels| ==> ClaudeModels[i].0 != ClaudeModels[j].0
  {
    assert ModelIds()[0] == DefaultModel;
  }

  /** Template names are distinct, so the table is a dictionary. */
  lemma TemplateNamesDistinct()
    ensures forall i, j :: 0 <= i < j < |CodeTemplates| ==> CodeTemplates[i].0 != CodeTemplates[j].0
  {
  }

  /** Every template holds the language field and then the description field, with
      no other brace anywhere. */
  lemma TemplatesWellFormed()
    ensures forall i :: 0 <= i < |CodeTemplates| ==> WellFormedTemplate(CodeTemplates[i].1)
  {
    forall i | 0 <= i < |CodeTemplates| ensures WellFormedTemplate(CodeTemplates[i].1) {
      TemplateShaped(i);
    }
  }

  /** The shape of each template, read off its text. */
  function TemplateShape(i: nat): Shape
    requires i < |CodeTemplates|
  {
    if i == 0 then Shape("创建一个", "函数，功能：", "")
    else if i == 1 then Shape("创建一个", "类，实现：", "")
    else if i == 2 then Shape("用", "实现", "算法")
    else if i == 3 then Shape("创建一个", " API 端点：", "")
    else Shape("用", "处理数据：", "")
  }

  lemma TemplateShaped(i: nat)
    requires i < |CodeTemplates|
    ensures ShapedBy(CodeTemplates[i].1, TemplateShape(i))
  {
    if i == 0 { TemplateShaped0();
    } else if i == 1 { TemplateShaped1();
    } else if i == 2 { TemplateShaped2();
    } else if i == 3 { TemplateShaped3();
    } else { TemplateShaped4();
    }
  }

  lemma TemplateShaped0()
    ensures ShapedBy(CodeTemplates[0].1, TemplateShape(0))
  {
    assert CodeTemplates[0].1 == FunctionTemplate;
    FunctionTemplatePieces();
    assert BraceFree("创建一个") && BraceFree("函数，功能：") && BraceFree("");
  }

  lemma FunctionTemplatePieces()
    ensures FunctionTemplate == "创建一个" + LanguageField + "函数，功能：" + DescriptionField + ""
  {
  }

  lemma TemplateShaped1()
    ensures ShapedBy(CodeTemplates[1].1, TemplateShape(1))
  {
    assert CodeTemplates[1].1 == ClassTemplate;
    ClassTemplatePieces();
    assert BraceFree("创建一个") && BraceFree("类，实现：") && BraceFree("");
  }

  lemma ClassTemplatePieces()
    ensures ClassTemplate == "创建一个" + LanguageField + "类，实现：" + DescriptionField + ""
  {
  }

  lemma TemplateShaped2()
    ensures ShapedBy(CodeTemplates[2].1, TemplateShape(2))
  {
    assert CodeTemplates[2].1 == AlgorithmTemplate;
    AlgorithmTemplatePieces();
    assert BraceFree("用") && BraceFree("实现") && BraceFree("算法");
  }

  lemma AlgorithmTemplatePieces()
    ensures AlgorithmTemplate == "用" + LanguageField + "实现" + DescriptionField + "算法"
  {
  }

  lemma TemplateShaped3()
    ensures ShapedBy(CodeTemplates[3].1, TemplateShape(3))
  {
    assert CodeTemplates[3].1 == ApiTemplate;
    ApiTemplatePieces();
    assert BraceFree("创建一个") && BraceFree(" API 端点：") && BraceFree("");
  }

  lemma ApiTemplatePieces()
    ensures ApiTemplate == "创建一个" + LanguageField + " API 端点：" + DescriptionField + ""
  {
  }

  lemma TemplateShaped4()
    ensures ShapedBy(CodeTemplates[4].1, TemplateShape(4))
  {
    assert CodeTemplates[4].1 == DataTemplate;
    DataTemplatePieces();
    assert BraceFree("用") && BraceFree("处理数据：") && BraceFree("");
  }

  lemma DataTemplatePieces()
    ensures DataTemplate == "用" + LanguageField + "处理数据：" + DescriptionField + ""
  {
  }

  /** The default theme is listed, and the default configuration carries the
      default model, temperature, token limit, theme and language. */
  lemma DefaultConfigConsistent()
    ensures DefaultTheme in Themes
    ensures ConfigModel in DefaultConfig && DefaultConfig[ConfigModel] == Str(DefaultModel)
    ensures ConfigTemperature in DefaultConfig && DefaultConfig[ConfigTemperature] == Float(DefaultTemperature)
    ensures ConfigMaxTokens in DefaultConfig && DefaultConfig[ConfigMaxTokens] == Int(DefaultMaxTokens)
    ensures ConfigTheme in DefaultConfig && DefaultConfig[ConfigTheme] == Str(DefaultTheme)
    ensures ConfigLanguage in DefaultConfig && DefaultConfig[ConfigLanguage] == Str(DefaultLanguage)
    ensures ConfigApiKey in DefaultConfig && !Truthy(DefaultConfig[ConfigApiKey])
  {
  }

  /** At least one attempt is made and the base delay is positive. */
  lemma RetryPolicySane()
    ensures ApiRetryAttempts >= 1 && ApiRetryDelay > 0
  {
  }
}
