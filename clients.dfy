/** resume_docs/langchain_clients.py: which client a model name selects, and how each
    client post-processes the text its model returns. The clients' construction (API
    keys, hosts) and the model calls themselves are outside the model. */
module Clients {
  import opened Results
  import Text

  /** The client class `get_llm_client` constructs. */
  datatype Provider = OpenAI | Zhipu | Ollama

  predicate NamesOpenAI(lower: string) {
    Text.Contains(lower, "gpt") || Text.Contains(lower, "o1") || Text.Contains(lower, "o4")
  }

  predicate NamesZhipu(lower: string) {
    Text.Contains(lower, "glm") || Text.Contains(lower, "spark")
  }

  predicate NamesOllama(lower: string) {
    Text.Contains(lower, "ollama") || Text.Contains(lower, "qwen") || Text.Contains(lower, "mixtral")
  }

  /** `get_llm_client`: the first family whose marker occurs in the lower-cased name;
      no marker raises "Unknown model". */
  function GetLlmClient(modelName: string): (r: Result<Provider>)
    ensures var lower := Text.Lower(modelName);
      (r == Ok(OpenAI) <==> NamesOpenAI(lower))
      && (r == Ok(Zhipu) <==> !NamesOpenAI(lower) && NamesZhipu(lower))
      && (r == Ok(Ollama) <==> !NamesOpenAI(lower) && !NamesZhipu(lower) && NamesOllama(lower))
      && (r.Err? <==> !NamesOpenAI(lower) && !NamesZhipu(lower) && !NamesOllama(lower))
    ensures r.Err? ==> r.error == UnknownModel(modelName)
  {
    var lower := Text.Lower(modelName);
    if NamesOpenAI(lower) then Ok(OpenAI)
    else if NamesZhipu(lower) then Ok(Zhipu)
    else if NamesOllama(lower) then Ok(Ollama)
    else Err(UnknownModel(modelName))
  }

  /** Only the lower-cased name matters. */
  lemma {:induction false} CaseDoesNotMatter(modelName: string)
    ensures GetLlmClient(Text.Lower(modelName)).Ok? ==> GetLlmClient(modelName) == GetLlmClient(Text.Lower(modelName))
    ensures GetLlmClient(Text.Lower(modelName)).Err? <==> GetLlmClient(modelName).Err?
  {
    Text.LowerIdempotent(modelName);
  }

  /** The model names the client constructors default to: OpenAI's "gpt-4o" and Zhipu's
      "glm-4" select their own client again. */
  lemma OpenAIDefaultName()
    ensures GetLlmClient("gpt-4o") == Ok(OpenAI)
  {
    Text.LowerOfLowercase("gpt-4o");
    Text.ContainsAt("gpt-4o", 0, "gpt");
  }

  lemma ZhipuDefaultName()
    ensures GetLlmClient("glm-4") == Ok(Zhipu)
  {
    Text.LowerOfLowercase("glm-4");
    GlmMarkers();
  }

  lemma GlmMarkers()
    ensures !NamesOpenAI("glm-4") && NamesZhipu("glm-4")
  {
    assert "glm-4"[0..][..3] == "glm";
    Text.ContainsAt("glm-4", 0, "glm");
    NotContains("glm-4", "gpt", 1);
    NotContains("glm-4", "o1", 0);
    NotContains("glm-4", "o4", 0);
  }

  /** Ollama's default "llama2" carries none of the markers and is rejected. */
  lemma OllamaDefaultNameIsUnknown()
    ensures GetLlmClient("llama2") == Err(UnknownModel("llama2"))
  {
    Text.LowerOfLowercase("llama2");
    NotContains("llama2", "gpt", 0);
    NotContains("llama2", "o1", 0);
    NotContains("llama2", "o4", 0);
    NotContains("llama2", "glm", 0);
    NotContains("llama2", "spark", 0);
    NotContains("llama2", "ollama", 0);
    NotContains("llama2", "qwen", 0);
    NotContains("llama2", "mixtral", 2);
  }

  /** The OpenAI markers are tried first: a name that also carries a Zhipu or an Ollama
      marker still selects OpenAI. */
  lemma OpenAIMarkersComeFirst(modelName: string)
    requires NamesOpenAI(Text.Lower(modelName))
    requires NamesZhipu(Text.Lower(modelName)) || NamesOllama(Text.Lower(modelName))
    ensures GetLlmClient(modelName) == Ok(OpenAI)
  {
  }

  /** For instance, the Zhipu-looking "glm-o1" selects OpenAI. */
  lemma GlmO1SelectsOpenAI()
    ensures NamesZhipu("glm-o1") && GetLlmClient("glm-o1") == Ok(OpenAI)
  {
    Text.LowerOfLowercase("glm-o1");
    Text.ContainsAt("glm-o1", 0, "glm");
    Text.ContainsAt("glm-o1", 4, "o1");
    OpenAIMarkersComeFirst("glm-o1");
  }

  /** `sub in s` is false when a character of `sub` does not occur in `s`. */
  lemma NotContains(s: string, sub: string, j: nat)
    requires j < |sub| && sub[j] !in s
    ensures !Text.Contains(s, sub)
  {
    forall i | 0 <= i <= |s| ensures !Text.StartsWith(s[i..], sub) {
      if i + |sub| <= |s| {
        assert s[i..][..|sub|][j] == s[i + j];
      }
    }
  }

  const Open: string := "<think>"
  const Close: string := "</think>"

  /** `re.sub(r'<think>.*?</think>', '', text, flags=re.DOTALL)`: scanning left to right,
      an opening tag with a closing tag somewhere after it is removed together with
      everything up to the first such closing tag; other text is kept. */
  function RemoveSpans(s: string): (r: string)
    ensures |r| <= |s|
    decreases |s|
  {
    if |s| == 0 then ""
    else if Text.StartsWith(s, Open) then
      match Text.IndexOf(s[|Open|..], Close)
      case Found(j) => RemoveSpans(s[|Open| + j + |Close|..])
      case Missing => [s[0]] + RemoveSpans(s[1..])
    else [s[0]] + RemoveSpans(s[1..])
  }

  /** `_remove_think_tags` */
  function RemoveThinkTags(text: string): (r: string)
    ensures |r| <= |text|
    ensures r == [] || (!Text.IsSpace(r[0]) && !Text.IsSpace(r[|r| - 1]))
  {
    Text.Strip(RemoveSpans(text))
  }

  /** Text without an opening tag, or without a closing tag, is only stripped. */
  lemma RemoveThinkTagsWithoutSpan(text: string)
    requires !Text.Contains(text, Open) || !Text.Contains(text, Close)
    ensures RemoveThinkTags(text) == Text.Strip(text)
  {
    if !Text.Contains(text, Open) {
      RemoveSpansNoOpen(text);
    } else {
      RemoveSpansUnclosed(text);
    }
  }

  /** Text without an opening tag has nothing to remove. */
  lemma {:induction false} RemoveSpansNoOpen(s: string)
    requires !Text.Contains(s, Open)
    ensures RemoveSpans(s) == s
    decreases |s|
  {
    if |s| > 0 {
      assert !Text.StartsWith(s[0..], Open);
      assert s[0..] == s;
      NotInTail(s, 1, Open);
      RemoveSpansNoOpen(s[1..]);
      assert s == [s[0]] + s[1..];
    }
  }

  /** Text without any closing tag is kept: an opening tag alone is not a match. */
  lemma {:induction false} RemoveSpansUnclosed(s: string)
    requires !Text.Contains(s, Close)
    ensures RemoveSpans(s) == s
    decreases |s|
  {
    if |s| > 0 {
      NotInTail(s, 1, Close);
      if Text.StartsWith(s, Open) {
        NotInTail(s, |Open|, Close);
      }
      RemoveSpansUnclosed(s[1..]);
      assert s == [s[0]] + s[1..];
    }
  }

  lemma NotInTail(s: string, k: nat, sub: string)
    requires k <= |s| && !Text.Contains(s, sub)
    ensures !Text.Contains(s[k..], sub)
  {
    forall i | 0 <= i <= |s[k..]| ensures !Text.StartsWith(s[k..][i..], sub) {
      assert s[k..][i..] == s[k + i..];
    }
  }

  /** A first character other than '<' is copied. */
  lemma RemoveSpansStep(s: string)
    requires |s| > 0 && s[0] != '<'
    ensures RemoveSpans(s) == [s[0]] + RemoveSpans(s[1..])
  {
    assert !Text.StartsWith(s, Open) by {
      if |Open| <= |s| {
        assert s[..|Open|][0] != Open[0];
      }
    }
  }

  /** Text without '<' is copied as it is, and scanning goes on after it. */
  lemma {:induction false} RemoveSpansPlainPrefix(a: string, t: string)
    requires forall i | 0 <= i < |a| :: a[i] != '<'
    ensures RemoveSpans(a + t) == a + RemoveSpans(t)
    decreases |a|
  {
    if |a| > 0 {
      ConsStep(a, t);
      assert forall i | 0 <= i < |a[1..]| :: a[1..][i] != '<' by {
        forall i | 0 <= i < |a[1..]| ensures a[1..][i] != '<' {
          assert a[1..][i] == a[i + 1];
        }
      }
      RemoveSpansPlainPrefix(a[1..], t);
      ConsAssoc(a, RemoveSpans(t));
    } else {
      assert a + t == t;
    }
  }

  lemma ConsAssoc(a: string, x: string)
    requires |a| > 0
    ensures [a[0]] + (a[1..] + x) == a + x
  {
    assert a == [a[0]] + a[1..];
  }

  lemma ConsStep(a: string, t: string)
    requires |a| > 0 && a[0] != '<'
    ensures RemoveSpans(a + t) == [a[0]] + RemoveSpans(a[1..] + t)
  {
    var s := a + t;
    assert s[0] == a[0];
    RemoveSpansStep(s);
    assert s[1..] == a[1..] + t;
  }

  /** An opening tag, a body in which the first closing tag is the one that ends it, and that
      closing tag are removed whole; the non-greedy `.*?` stops there. */
  lemma RemoveSpansCutsSpan(b: string, c: string)
    requires Text.IndexOf(b + Close + c, Close) == Text.Found(|b|)
    ensures RemoveSpans(Open + b + Close + c) == RemoveSpans(c)
  {
    var t := b + Close + c;
    var s := Open + t;
    assert s == Open + b + Close + c;
    assert s[..|Open|] == Open && s[|Open|..] == t;
    RemoveSpansAtSpan(s, |b|);
    assert t[|b| + |Close|..] == c;
  }

  /** At an opening tag whose first closing tag starts `j` characters after it, the span up
      to that closing tag is dropped. */
  lemma RemoveSpansAtSpan(s: string, j: nat)
    requires Text.StartsWith(s, Open) && Text.IndexOf(s[|Open|..], Close) == Text.Found(j)
    ensures |Open| + j + |Close| <= |s|
    ensures RemoveSpans(s) == RemoveSpans(s[|Open| + j + |Close|..])
  {
    assert Text.StartsWith(s[|Open|..][j..], Close);
  }

  /** Plain text before a span, then the span, then the rest: the span is cut out and
      scanning resumes right after its first closing tag. */
  lemma RemoveSpansCutsFirstSpan(a: string, b: string, c: string)
    requires forall i | 0 <= i < |a| :: a[i] != '<'
    requires Text.IndexOf(b + Close + c, Close) == Text.Found(|b|)
    ensures RemoveSpans(a + (Open + b + Close + c)) == a + RemoveSpans(c)
  {
    RemoveSpansPlainPrefix(a, Open + b + Close + c);
    RemoveSpansCutsSpan(b, c);
  }

  /** A body without '<' holds no closing tag, so the span's own closing tag is the first. */
  lemma FirstCloseAfterPlain(b: string, c: string)
    requires forall i | 0 <= i < |b| :: b[i] != '<'
    ensures Text.IndexOf(b + Close + c, Close) == Text.Found(|b|)
  {
    var s := b + Close + c;
    assert s[|b|..][..|Close|] == Close;
    Text.ContainsAt(s, |b|, Close);
    forall j | 0 <= j < |b| ensures !Text.StartsWith(s[j..], Close) {
      assert s[j..][0] == b[j];
    }
  }

  /** `invoke` of each client on the text its model returned: OpenAI and Zhipu remove the
      think tags, Ollama returns the text as it came. */
  function Respond(provider: Provider, content: string): (r: string)
    ensures provider == Ollama ==> r == content
    ensures provider != Ollama ==> r == RemoveThinkTags(content)
  {
    match provider
    case Ollama => content
    case _ => RemoveThinkTags(content)
  }
}
