/**
 * The generation business rules: normalising the requested language, building the
 * prompt from a template, validating a description, and routing a request to the
 * streaming or the non-streaming client call.
 */
module CodeGeneration {
  import opened Wrappers
  import opened Py
  import opened Constants
  import opened ClaudeApi

  /** An unsupported language is replaced by "Python". */
  function NormaliseLanguage(language: string): (l: string)
    ensures l in ProgrammingLanguages
    ensures language in ProgrammingLanguages ==> l == language
    ensures language !in ProgrammingLanguages ==> l == "Python"
  {
    if language !in ProgrammingLanguages && language != "Other" then "Python" else language
  }

  /** "Other" is listed, so the second half of the normalisation test never decides. */
  lemma OtherTestRedundant(language: string)
    ensures (language !in ProgrammingLanguages && language != "Other") <==> language !in ProgrammingLanguages
  {
    LanguagesContainDefaults();
  }

  /** `template.format(language=..., description=...)` for templates whose only
      replacement fields are the two named ones. */
  function Format(t: string, language: string, description: string): (r: string)
    ensures (forall i :: 0 <= i < |t| ==> t[i] != '{') ==> r == t
    decreases |t|
  {
    assert LanguageField[0] == '{' && DescriptionField[0] == '{';
    if t == [] then ""
    else if StartsWith(t, LanguageField) then language + Format(t[|LanguageField|..], language, description)
    else if StartsWith(t, DescriptionField) then description + Format(t[|DescriptionField|..], language, description)
    else [t[0]] + Format(t[1..], language, description)
  }

  /** Text without braces is copied through unchanged. */
  lemma {:induction false} FormatBraceFree(x: string, rest: string, language: string, description: string)
    requires BraceFree(x)
    ensures Format(x + rest, language, description) == x + Format(rest, language, description)
    decreases |x|
  {
    if x != [] {
      var t := x + rest;
      assert t[0] == x[0] && x[0] != '{';
      assert !StartsWith(t, LanguageField) && !StartsWith(t, DescriptionField);
      assert t[1..] == x[1..] + rest;
      FormatBraceFree(x[1..], rest, language, description);
      assert Format(t, language, description) == [x[0]] + Format(x[1..] + rest, language, description);
      assert [x[0]] + (x[1..] + Format(rest, language, description)) == x + Format(rest, language, description);
    } else {
      assert x + rest == rest;
    }
  }

  lemma FormatField(field: string, rest: string, language: string, description: string)
    requires field == LanguageField || field == DescriptionField
    ensures Format(field + rest, language, description)
            == (if field == LanguageField then language else description) + Format(rest, language, description)
  {
    var t := field + rest;
    assert t[..|field|] == field;
    assert t[|field|..] == rest;
    if field == DescriptionField {
      assert t[1] == 'd';
      assert !StartsWith(t, LanguageField);
    }
  }

  /** The part of a template from its language field on. */
  lemma FormatTail(mid: string, post: string, language: string, description: string)
    requires BraceFree(mid) && BraceFree(post)
    ensures Format(mid + (DescriptionField + post), language, description) == mid + (description + post)
  {
    FormatBraceFree(mid, DescriptionField + post, language, description);
    FormatField(DescriptionField, post, language, description);
    FormatBraceFree(post, "", language, description);
    assert post + "" == post;
  }

  /** The part of a template up to and including its language field. */
  lemma FormatHead(pre: string, tail: string, language: string, description: string)
    requires BraceFree(pre)
    ensures Format(pre + (LanguageField + tail), language, description)
            == pre + (language + Format(tail, language, description))
  {
    FormatBraceFree(pre, LanguageField + tail, language, description);
    FormatField(LanguageField, tail, language, description);
  }

  /** Formatting a well-formed template fills its two fields. */
  lemma FormatFills(t: string, s: Shape, language: string, description: string)
    requires ShapedBy(t, s)
    ensures Format(t, language, description) == Fill(s, language, description)
  {
    var tail := s.mid + (DescriptionField + s.post);
    assert t == s.pre + (LanguageField + tail);
    FormatHead(s.pre, tail, language, description);
    FormatTail(s.mid, s.post, language, description);
    assert Fill(s, language, description) == s.pre + (language + (s.mid + (description + s.post)));
  }

  /** The prompt: the named template filled in when the name is a non-empty key of the
      template table, the description itself otherwise. */
  function BuildPrompt(description: string, language: string, templateType: Option<string>): (p: string)
    ensures templateType.None? || templateType.value == [] || LookupTemplate(templateType.value).None?
            ==> p == description
    ensures forall i :: (0 <= i < |CodeTemplates| && templateType == Some(CodeTemplates[i].0)
                         ==> p == Format(CodeTemplates[i].1, language, description))
  {
    TemplateNamesDistinct();
    if templateType.Some? && templateType.value != [] && LookupTemplate(templateType.value).Some? then
      Format(LookupTemplate(templateType.value).value, language, description)
    else description
  }

  /** No template, an empty name or an unknown name: the description verbatim. */
  lemma BuildPromptVerbatim(description: string, language: string, templateType: Option<string>)
    requires templateType.None? || templateType.value == []
             || forall i :: 0 <= i < |CodeTemplates| ==> CodeTemplates[i].0 != templateType.value
    ensures BuildPrompt(description, language, templateType) == description
  {
  }

  /** A known template name: that template with the language and the description in
      its two fields. */
  lemma BuildPromptTemplate(description: string, language: string, i: nat)
    requires i < |CodeTemplates|
    ensures BuildPrompt(description, language, Some(CodeTemplates[i].0))
            == Fill(TemplateShape(i), language, description)
  {
    var name := CodeTemplates[i].0;
    TemplateNamesDistinct();
    var found := LookupTemplate(name);
    assert found.Some?;
    var j :| 0 <= j < |CodeTemplates| && CodeTemplates[j] == (name, found.value);
    assert j == i;
    TemplateShaped(i);
    FormatFills(CodeTemplates[i].1, TemplateShape(i), language, description);
  }

  const TooShortMessage: string := "代码描述太短，请提供更多细节"
  const TooLongMessage: string := "代码描述太长，请精简您的描述"

  /** `(is_valid, message)` for a description. */
  function ValidateDescription(description: string): (r: (bool, string))
    ensures r.0 <==> !Blank(description) && 10 <= |description| <= 5000
    ensures r.0 ==> r.1 == ""
    ensures !r.0 ==> r.1 != []
    ensures Blank(description) ==> r.1 == EmptyInputMessage
    ensures !Blank(description) && |description| < 10 ==> r.1 == TooShortMessage
    ensures !Blank(description) && |description| > 5000 ==> r.1 == TooLongMessage
  {
    if Blank(description) then (false, "请输入代码描述")
    else if |description| < 10 then (false, TooShortMessage)
    else if |description| > 5000 then (false, TooLongMessage)
    else (true, "")
  }

  /** Lengths are counted on the untrimmed text: leading spaces count towards the
      minimum of ten characters. */
  lemma ValidateDescriptionUntrimmed()
    ensures ValidateDescription("  abcdefgh").0
    ensures !ValidateDescription("abcdefghi").0
  {
    var s := "  abcdefgh";
    assert !IsSpace(s[2]);
  }

  /** The template names, in table order. */
  function TemplateTypes(): (ts: seq<string>)
    ensures |ts| == |CodeTemplates|
    ensures forall i :: 0 <= i < |ts| ==> ts[i] == CodeTemplates[i].0
  {
    seq(|CodeTemplates|, i requires 0 <= i < |CodeTemplates| => CodeTemplates[i].0)
  }

  /** Every listed name selects a template, and no other name does. */
  lemma TemplateTypesSelect(name: string)
    ensures name in TemplateTypes() <==> LookupTemplate(name).Some?
  {
    var ts := TemplateTypes();
    if LookupTemplate(name).Some? {
      var i :| 0 <= i < |CodeTemplates| && CodeTemplates[i].0 == name;
      assert ts[i] == name;
    }
  }

  /** The supported languages. */
  function SupportedLanguages(): (ls: seq<string>)
    ensures |ls| == |ProgrammingLanguages|
    ensures forall i :: 0 <= i < |ls| ==> ls[i] == ProgrammingLanguages[i]
    ensures forall l :: l in ls <==> l in ProgrammingLanguages
  {
    ProgrammingLanguages
  }

  /** Every language the generator sends is a supported one. */
  lemma NormalisedIsSupported(language: string)
    ensures NormaliseLanguage(language) in SupportedLanguages()
    ensures language in SupportedLanguages() ==> NormaliseLanguage(language) == language
  {
  }

  class CodeGenerator {
    const apiClient: ClaudeApiClient

    constructor (apiClient: ClaudeApiClient)
      ensures this.apiClient == apiClient
    {
      this.apiClient := apiClient;
    }

    /** Generation: normalise, build the prompt, then stream when streaming is asked
        for and a callback is given, and make the blocking call otherwise. No model
        override is passed, so the client's current model is used. */
    method Generate(description: string, language: string, templateType: Option<string>,
                    temperature: real, maxTokens: int, useStream: bool, hasCallback: bool,
                    answers: nat -> Reply, stream: Stream)
      returns (c: Call, streamed: bool)
      ensures streamed <==> useStream && hasCallback
      ensures var lang := NormaliseLanguage(language);
              var req := apiClient.RequestFor(BuildPrompt(description, lang, templateType),
                                              lang, None, temperature, maxTokens);
              c == if streamed then Streaming(req, stream) else Blocking(req, answers)
      ensures forall r :: r in c.sent ==>
                r.model == apiClient.model && r.temperature == Some(temperature) && r.maxTokens == maxTokens
                && r.system == Some(SystemPrompt(NormaliseLanguage(language)))
    {
      var lang := NormaliseLanguage(language);
      var prompt := BuildPrompt(description, lang, templateType);
      streamed := useStream && hasCallback;
      if streamed {
        c := apiClient.GenerateCodeStream(prompt, lang, None, temperature, maxTokens, stream);
      } else {
        c := apiClient.GenerateCode(prompt, lang, None, temperature, maxTokens, answers);
      }
    }
  }
}
