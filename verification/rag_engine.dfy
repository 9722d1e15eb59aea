/** The fixed prompt template of `llm_dev1/rag_engine.py`. */
module RagEngine {

  // The literal text around the four sections, in the order the template places them.
  const ProblemHeader: string := "\n[문제 정보]\n"
  const ChatLogHeader: string := "\n\n[채팅 기록]\n"
  const CriteriaHeader: string := "\n\n[오답 판별 기준]\n"
  const InputHeader: string := "\n\n[사용자 입력]\n"
  const Trailer: string := "\n\n"

  /** The characters the template adds around its four arguments. */
  const TemplateLength: nat := |ProblemHeader| + |ChatLogHeader| + |CriteriaHeader| + |InputHeader| + |Trailer|

  /** The template adds 45 characters (Hangul syllables count as one character each). */
  lemma TemplateLengthIs45()
    ensures TemplateLength == 45
  {
  }

  /**
   * `build_prompt`: the four arguments under their section headings, in the order problem
   * information, chat log, grading criteria, user input.
   */
  function BuildPrompt(metadata: string, chatLog: string, ragCriteria: string, userInput: string): (p: string)
    ensures |p| == |metadata| + |chatLog| + |ragCriteria| + |userInput| + TemplateLength
    ensures ProblemHeader <= p
    ensures p[|p| - |userInput| - |Trailer|..] == userInput + Trailer
  {
    ProblemHeader + metadata + ChatLogHeader + chatLog + CriteriaHeader + ragCriteria + InputHeader + userInput + Trailer
  }

  /** Where each section's argument starts in the prompt. */
  function MetadataStart(): nat { |ProblemHeader| }
  function ChatLogStart(metadata: string): nat { MetadataStart() + |metadata| + |ChatLogHeader| }
  function CriteriaStart(metadata: string, chatLog: string): nat {
    ChatLogStart(metadata) + |chatLog| + |CriteriaHeader|
  }
  function UserInputStart(metadata: string, chatLog: string, ragCriteria: string): nat {
    CriteriaStart(metadata, chatLog) + |ragCriteria| + |InputHeader|
  }

  /** The metadata sits right after the problem heading. */
  lemma MetadataSection(metadata: string, chatLog: string, ragCriteria: string, userInput: string)
    ensures var p := BuildPrompt(metadata, chatLog, ragCriteria, userInput);
      MetadataStart() + |metadata| <= |p| && p[MetadataStart()..MetadataStart() + |metadata|] == metadata
  {
    var a := ProblemHeader + metadata;
    var c := a + ChatLogHeader + chatLog + CriteriaHeader + ragCriteria;
    assert BuildPrompt(metadata, chatLog, ragCriteria, userInput) == c + (InputHeader + userInput + Trailer);
    assert c == a + (ChatLogHeader + chatLog + CriteriaHeader + ragCriteria);
    assert a[|ProblemHeader|..] == metadata;
  }

  /** The chat log sits right after its heading. */
  lemma ChatLogSection(metadata: string, chatLog: string, ragCriteria: string, userInput: string)
    ensures var p, c := BuildPrompt(metadata, chatLog, ragCriteria, userInput), ChatLogStart(metadata);
      c + |chatLog| <= |p| && p[c - |ChatLogHeader|..c] == ChatLogHeader && p[c..c + |chatLog|] == chatLog
  {
    var b := ProblemHeader + metadata + ChatLogHeader + chatLog;
    var a := ProblemHeader + metadata;
    assert BuildPrompt(metadata, chatLog, ragCriteria, userInput)
        == b + (CriteriaHeader + ragCriteria + InputHeader + userInput + Trailer);
    assert b[|a| + |ChatLogHeader|..] == chatLog && b[|a|..|a| + |ChatLogHeader|] == ChatLogHeader;
  }

  /** The grading criteria sit right after their heading. */
  lemma CriteriaSection(metadata: string, chatLog: string, ragCriteria: string, userInput: string)
    ensures var p, k := BuildPrompt(metadata, chatLog, ragCriteria, userInput), CriteriaStart(metadata, chatLog);
      k + |ragCriteria| <= |p| && p[k - |CriteriaHeader|..k] == CriteriaHeader && p[k..k + |ragCriteria|] == ragCriteria
  {
    var b := ProblemHeader + metadata + ChatLogHeader + chatLog;
    var c := b + CriteriaHeader + ragCriteria;
    assert BuildPrompt(metadata, chatLog, ragCriteria, userInput) == c + (InputHeader + userInput + Trailer);
    assert c[|b| + |CriteriaHeader|..] == ragCriteria && c[|b|..|b| + |CriteriaHeader|] == CriteriaHeader;
  }

  /** The user input sits right after its heading. */
  lemma UserInputSection(metadata: string, chatLog: string, ragCriteria: string, userInput: string)
    ensures var p, u := BuildPrompt(metadata, chatLog, ragCriteria, userInput), UserInputStart(metadata, chatLog, ragCriteria);
      u + |userInput| <= |p| && p[u - |InputHeader|..u] == InputHeader && p[u..u + |userInput|] == userInput
  {
    var c := ProblemHeader + metadata + ChatLogHeader + chatLog + CriteriaHeader + ragCriteria;
    var d := c + InputHeader + userInput;
    assert BuildPrompt(metadata, chatLog, ragCriteria, userInput) == d + Trailer;
    assert d[|c| + |InputHeader|..] == userInput && d[|c|..|c| + |InputHeader|] == InputHeader;
  }

  /**
   * Each argument appears verbatim, under its own heading, and the sections come in the fixed
   * order metadata, chat log, criteria, user input.
   */
  lemma SectionsInOrder(metadata: string, chatLog: string, ragCriteria: string, userInput: string)
    ensures var p := BuildPrompt(metadata, chatLog, ragCriteria, userInput);
      var m, c, k, u := MetadataStart(), ChatLogStart(metadata), CriteriaStart(metadata, chatLog),
                        UserInputStart(metadata, chatLog, ragCriteria);
      && m < c < k < u <= |p|
      && p[m..m + |metadata|] == metadata
      && p[c - |ChatLogHeader|..c] == ChatLogHeader && p[c..c + |chatLog|] == chatLog
      && p[k - |CriteriaHeader|..k] == CriteriaHeader && p[k..k + |ragCriteria|] == ragCriteria
      && p[u - |InputHeader|..u] == InputHeader && p[u..u + |userInput|] == userInput
  {
    MetadataSection(metadata, chatLog, ragCriteria, userInput);
    ChatLogSection(metadata, chatLog, ragCriteria, userInput);
    CriteriaSection(metadata, chatLog, ragCriteria, userInput);
    UserInputSection(metadata, chatLog, ragCriteria, userInput);
  }
}
