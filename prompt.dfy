/**
 * The prompt box: the text being typed, the submit gate shared by the
 * button and the Enter key, voice dictation and the three suggestions.
 */
module PromptInput {
  import opened Wrappers
  import opened Text

  const Suggestions: seq<string> := [
    "Résumer un article scientifique",
    "Générer des idées de recherche",
    "Reformuler un paragraphe"
  ]

  /** `prompt.trim() && !isGenerating`: the handler hands the prompt on, exactly when it is not all blanks. */
  predicate CanSubmit(prompt: string, isGenerating: bool)
    ensures CanSubmit(prompt, isGenerating) <==> !IsBlank(prompt) && !isGenerating
  {
    TrimEmptyIffBlank(prompt);
    Trim(prompt) != "" && !isGenerating
  }

  /** The send button's `disabled`: the button is enabled exactly when a click would submit. */
  predicate SendDisabled(prompt: string, isGenerating: bool)
    ensures SendDisabled(prompt, isGenerating) <==> !CanSubmit(prompt, isGenerating)
  {
    Trim(prompt) == "" || isGenerating
  }

  /** Enter without Shift submits; every other key edits the text. */
  predicate SubmitsOnKey(key: string, shiftKey: bool) {
    key == "Enter" && !shiftKey
  }

  class PromptBox {
    var prompt: string

    constructor ()
      ensures prompt == ""
    {
      prompt := "";
    }

    /** Typing: the text area is disabled while generating. */
    method Edit(text: string, isGenerating: bool)
      modifies this
      ensures prompt == if isGenerating then old(prompt) else text
    {
      if !isGenerating {
        prompt := text;
      }
    }

    /**
     * `handleSubmit`: a non-blank prompt, outside generation, is handed on
     * untrimmed and the box is cleared; otherwise nothing happens.
     */
    method HandleSubmit(isGenerating: bool) returns (submitted: Option<string>)
      modifies this
      ensures submitted.Some? <==> !IsBlank(old(prompt)) && !isGenerating
      ensures submitted.Some? ==> submitted.value == old(prompt)
      ensures prompt == if submitted.Some? then "" else old(prompt)
    {
      TrimEmptyIffBlank(prompt);
      if Trim(prompt) != "" && !isGenerating {
        submitted := Some(prompt);
        prompt := "";
      } else {
        submitted := None;
      }
    }

    /** `handleKeyDown`: Enter without Shift prevents the newline and submits. */
    method HandleKeyDown(key: string, shiftKey: bool, isGenerating: bool) returns (submitted: Option<string>, prevented: bool)
      modifies this
      ensures prevented == SubmitsOnKey(key, shiftKey)
      ensures submitted.Some? <==> prevented && !IsBlank(old(prompt)) && !isGenerating
      ensures submitted.Some? ==> submitted.value == old(prompt)
      ensures prompt == if submitted.Some? then "" else old(prompt)
    {
      prevented := SubmitsOnKey(key, shiftKey);
      submitted := None;
      if prevented {
        submitted := HandleSubmit(isGenerating);
      }
    }

    /** A dictated transcript is appended after a space, even to an empty box. */
    method AppendTranscript(transcript: string)
      modifies this
      ensures prompt == old(prompt) + " " + transcript
    {
      prompt := prompt + " " + transcript;
    }

    /** A suggestion button replaces the text; the buttons are disabled while generating. */
    method ClickSuggestion(i: nat, isGenerating: bool)
      requires i < |Suggestions|
      modifies this
      ensures prompt == if isGenerating then old(prompt) else Suggestions[i]
      ensures !isGenerating ==> CanSubmit(prompt, false)
    {
      if !isGenerating {
        prompt := Suggestions[i];
        SuggestionsNotBlank(i);
      }
    }
  }

  /** Every suggestion is a prompt the box accepts. */
  lemma SuggestionsNotBlank(i: nat)
    requires i < |Suggestions|
    ensures CanSubmit(Suggestions[i], false)
  {
    var s := Suggestions[i];
    assert !IsSpace(s[0]);
    assert !IsBlank(s);
    TrimEmptyIffBlank(s);
  }
}
