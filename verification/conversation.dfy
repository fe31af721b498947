/**
 * Title post-processing of `generate_conversation_name`
 * (app/conversation/controller/ConversationController.py): the title model's reply is cleaned
 * of surrounding whitespace and quotes and cut down to its first four words.
 */
module Conversation {
  import opened Wrappers
  import opened Text

  /** The most words a conversation title keeps. */
  const MaxTitleWords: nat := 4

  /** `.strip().strip('"').strip("'")`: whitespace first, then double quotes, then single quotes. */
  function CleanTitle(raw: string): (title: string)
    ensures |title| <= |raw|
    ensures TrimmedBy(title, IsChar('\''))
  {
    var unspaced := Strip(raw);
    var undoubled := StripChar(unspaced, '"');
    StripChar(undoubled, '\'')
  }

  /** `words[:4]`. */
  function FirstWords(words: seq<string>): (kept: seq<string>)
    ensures |kept| == if |words| < MaxTitleWords then |words| else MaxTitleWords
    ensures kept == words[..|kept|]
  {
    if |words| <= MaxTitleWords then words else words[..MaxTitleWords]
  }

  /**
   * The title for a new conversation. `llmAvailable` is whether the title model was set up;
   * `reply` is its answer, `Failed` when the call raised.
   */
  function GenerateConversationName(llmAvailable: bool, reply: Result<string>): (name: Option<string>)
    ensures !llmAvailable || reply.Failed? ==> name.None?
    ensures llmAvailable && reply.Ok? ==>
      (name.Some? <==> Words(CleanTitle(reply.value)) != [])
    ensures name.Some? ==>
      && reply.Ok?
      && name.value != ""
      && 1 <= |Words(name.value)| <= MaxTitleWords
      && Words(name.value) == FirstWords(Words(CleanTitle(reply.value)))
  {
    if !llmAvailable then None
    else if reply.Failed? then None
    else
      var rawName := CleanTitle(reply.value);
      if rawName == "" then None
      else
        var words := Words(rawName);
        if words == [] then None
        else
          TitleWords(words);
          Some(Join(" ", FirstWords(words)))
  }

  /** Joining the first words with single spaces splits back into those words. */
  lemma TitleWords(words: seq<string>)
    requires words != [] && forall i :: 0 <= i < |words| ==> IsWord(words[i])
    ensures Words(Join(" ", FirstWords(words))) == FirstWords(words)
    ensures Join(" ", FirstWords(words)) != ""
  {
    var kept := FirstWords(words);
    WordsOfJoin(kept);
  }

  /**
   * A title that is not empty once cleaned can still hold no word: `' '` loses its quotes and
   * leaves a lone space, so the name is `None` through the `if words` test, not the emptiness test.
   */
  lemma QuotedBlankTitle()
    ensures CleanTitle("' '") == " "
    ensures GenerateConversationName(true, Ok("' '")) == None
  {
    CleanQuotedBlank();
    BlankHasNoWords();
    assert Words(CleanTitle("' '")) == [];
  }

  lemma BlankHasNoWords()
    ensures Words(" ") == []
  {
    assert IsSpace(" "[0]) && " "[1..] == "";
  }

  lemma CleanQuotedBlank()
    ensures CleanTitle("' '") == " "
  {
    UnspacedQuotedBlank();
    UndoubledQuotedBlank();
    SingleQuotesDropped();
  }

  lemma UnspacedQuotedBlank()
    ensures Strip("' '") == "' '"
  {
    var raw := "' '";
    assert raw[0] == '\'' && raw[2] == '\'';
    TrimKeeps(raw, IsSpace);
  }

  lemma UndoubledQuotedBlank()
    ensures StripChar("' '", '"') == "' '"
  {
    var raw := "' '";
    assert raw[0] == '\'' && raw[2] == '\'';
    TrimKeeps(raw, IsChar('"'));
  }

  lemma SingleQuotesDropped()
    ensures StripChar("' '", '\'') == " "
  {
    var sq := IsChar('\'');
    var raw := "' '";
    var tail := raw[1..];
    assert tail == " '" && tail[0] == ' ';
    assert TrimStart(raw, sq) == tail;
    assert tail[..1] == " ";
    assert TrimEnd(tail, sq) == TrimEnd(" ", sq);
  }
}
