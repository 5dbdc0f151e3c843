/**
 * How the chat page answers a prompt: plain chat, retrieval over the
 * uploaded documents, or the company identification flow.
 */
module ChatRouting {
  import opened Text

  /** The three answering paths of the chat page. */
  datatype Route = NormalChat | RagAnswer | CompanyIdentification

  /** The words that mark a question about identifying companies. */
  const IdentificationWords: seq<string> := [
    "transmissora", "empresa", "pagador", "cnpj", "identificar",
    "quem", "qual empresa", "qual transmissora", "de-para",
    "codigo ons", "beneficiario", "codigo fornecedor"
  ]

  /** `any(palavra in text for palavra in words)`. */
  function MentionsAny(words: seq<string>, text: string): (r: bool)
    ensures r <==> exists k :: 0 <= k < |words| && IsSubstring(words[k], text)
  {
    if words == [] then false
    else if IsSubstring(words[0], text) then true
    else
      var r := MentionsAny(words[1..], text);
      assert forall k :: 1 <= k < |words| ==> words[k] == words[1..][k - 1];
      r
  }

  /**
   * The route for `prompt`, given whether documents were processed and
   * whether a vector store exists in the session.
   */
  function ChooseRoute(documentsProcessed: bool, hasVectorstore: bool, prompt: string): (route: Route)
    ensures route == NormalChat <==> !(documentsProcessed && hasVectorstore)
    ensures route == CompanyIdentification <==>
      documentsProcessed && hasVectorstore &&
      exists k :: 0 <= k < |IdentificationWords| && IsSubstring(IdentificationWords[k], Lower(prompt))
    ensures route == RagAnswer <==>
      documentsProcessed && hasVectorstore &&
      forall k :: 0 <= k < |IdentificationWords| ==> !IsSubstring(IdentificationWords[k], Lower(prompt))
  {
    if documentsProcessed && hasVectorstore then
      if MentionsAny(IdentificationWords, Lower(prompt)) then CompanyIdentification else RagAnswer
    else
      NormalChat
  }

  /** The route does not depend on the letter case of the prompt. */
  lemma RouteIgnoresCase(documentsProcessed: bool, hasVectorstore: bool, prompt: string)
    ensures ChooseRoute(documentsProcessed, hasVectorstore, Upper(prompt)) == ChooseRoute(documentsProcessed, hasVectorstore, prompt)
    ensures ChooseRoute(documentsProcessed, hasVectorstore, Lower(prompt)) == ChooseRoute(documentsProcessed, hasVectorstore, prompt)
  {
    LowerOfUpper(prompt);
    LowerIdempotent(prompt);
  }

  /**
   * Keywords are matched as substrings, not whole words: any prompt that
   * mentions "empresas", in any letter case, is an identification question.
   */
  lemma EmpresasTriggersIdentification(prompt: string)
    requires IsSubstring("empresas", Lower(prompt))
    ensures ChooseRoute(true, true, prompt) == CompanyIdentification
  {
    assert OccursAt("empresa", "empresas", 0);
    SubstringTransitive("empresa", "empresas", Lower(prompt));
    assert IdentificationWords[1] == "empresa";
  }

  /** A concrete prompt in capitals that only says "EMPRESAS". */
  lemma EmpresasExample()
    ensures ChooseRoute(true, true, "Quais EMPRESAS pagam?") == CompanyIdentification
  {
    CapitalsAt("Quais EMPRESAS pagam?", 6);
    EmpresasTriggersIdentification("Quais EMPRESAS pagam?");
  }

  /** "EMPRESAS" in capitals at `i` becomes "empresas" once lowered. */
  lemma CapitalsAt(s: string, i: nat)
    requires i + 8 <= |s| && s[i..i + 8] == "EMPRESAS"
    ensures IsSubstring("empresas", Lower(s))
  {
    LowerSlice(s, i, i + 8);
    LowerEmpresas();
    assert OccursAt("empresas", Lower(s), i);
  }

  lemma LowerEmpresas()
    ensures Lower("EMPRESAS") == "empresas"
  {
  }

  /** The keyword list without the two phrases that repeat a shorter keyword. */
  const EssentialWords: seq<string> := IdentificationWords[..6] + IdentificationWords[8..]

  /**
   * "qual empresa" and "qual transmissora" add nothing: every text that
   * contains one of them contains "empresa" or "transmissora" too, so the
   * shorter list routes every prompt the same way.
   */
  lemma PhrasesAreRedundant(text: string)
    ensures MentionsAny(IdentificationWords, text) <==> MentionsAny(EssentialWords, text)
  {
    if MentionsAny(IdentificationWords, text) {
      var k :| 0 <= k < |IdentificationWords| && IsSubstring(IdentificationWords[k], text);
      EssentialWordFor(text, k);
    }
    if MentionsAny(EssentialWords, text) {
      var j :| 0 <= j < |EssentialWords| && IsSubstring(EssentialWords[j], text);
      assert EssentialWords[j] == IdentificationWords[if j < 6 then j else j + 2];
    }
  }

  /** Whatever keyword a text mentions, it mentions one of the shorter list too. */
  lemma EssentialWordFor(text: string, k: nat)
    requires k < |IdentificationWords| && IsSubstring(IdentificationWords[k], text)
    ensures exists j :: 0 <= j < |EssentialWords| && IsSubstring(EssentialWords[j], text)
  {
    if k == 6 {
      assert "qual " + "empresa" == IdentificationWords[6];
      PhraseHoldsWord("qual ", "empresa", text);
      assert IsSubstring(EssentialWords[1], text);
    } else if k == 7 {
      assert "qual " + "transmissora" == IdentificationWords[7];
      PhraseHoldsWord("qual ", "transmissora", text);
      assert IsSubstring(EssentialWords[0], text);
    } else {
      assert IsSubstring(EssentialWords[if k < 6 then k else k - 2], text);
    }
  }

  /** A text that contains `prefix + word` contains `word`. */
  lemma PhraseHoldsWord(prefix: string, word: string, text: string)
    requires IsSubstring(prefix + word, text)
    ensures IsSubstring(word, text)
  {
    SubstringOfConcat(prefix, word, []);
    assert prefix + word + [] == prefix + word;
    SubstringTransitive(word, prefix + word, text);
  }

  /** Dropping the two phrases from the keyword list changes no routing decision. */
  lemma EssentialWordsRouteAlike(documentsProcessed: bool, hasVectorstore: bool, prompt: string)
    ensures ChooseRoute(documentsProcessed, hasVectorstore, prompt) ==
      (if documentsProcessed && hasVectorstore then
         if MentionsAny(EssentialWords, Lower(prompt)) then CompanyIdentification else RagAnswer
       else NormalChat)
  {
    PhrasesAreRedundant(Lower(prompt));
  }
}
