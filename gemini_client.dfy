/**
 * The term-selection client (server/src/GeminiClient.ts): builds the prompt
 * from a search history, cleans up the model's reply and falls back to a
 * fixed record whenever the call or the parse fails.
 *
 * The model call and `JSON.parse` are not modelled; they are the parameters
 * `model` and `parse` of ProcessSearchHistory.
 */
module GeminiClient {
  import opened Protocol

  /** What the model call yields: its reply text, or a failure (a thrown error). */
  datatype ModelReply = Failed | Reply(text: string)

  const Instructions: string :=
    "Analyze the following search history entries and identify the most embarrassing or funny search term. "
    + "Also, provide a sentiment (positive, negative, neutral), keywords, and a category for the selected search term. "
    + "Return the output as a JSON object with the following structure: "
    + "{ \"selectedSearchTerm\": \"\", \"sentiment\": \"\", \"keywords\": [], \"category\": \"\" }"

  const HistoryHeading: string := "\n\nSearch History:\n"

  /** Everything in the prompt before the history lines. */
  const Preamble: string := Instructions + HistoryHeading

  /** The record returned whenever the call or the parse fails. */
  const Fallback: Analysis := Analysis("Error processing history", "neutral", [], "")

  /** A template literal renders a missing `query` as the text "undefined". */
  function QueryText(e: HistoryEntry): string
  {
    match e.query
    case Some(q) => q
    case None => "undefined"
  }

  function Line(e: HistoryEntry): string
  {
    "- " + QueryText(e)
  }

  function Lines(history: seq<HistoryEntry>): (r: seq<string>)
    ensures |r| == |history|
    ensures forall i | 0 <= i < |history| :: r[i] == Line(history[i])
  {
    if history == [] then [] else [Line(history[0])] + Lines(history[1..])
  }

  /** `Array.prototype.join`: the parts with `sep` between neighbours. */
  function Join(parts: seq<string>, sep: string): string
  {
    if parts == [] then ""
    else if |parts| == 1 then parts[0]
    else parts[0] + sep + Join(parts[1..], sep)
  }

  /** The history part of the prompt: one line per entry, newline-separated. */
  function HistorySection(history: seq<HistoryEntry>): string
  {
    Join(Lines(history), "\n")
  }

  function Prompt(history: seq<HistoryEntry>): string
  {
    Preamble + HistorySection(history)
  }

  /** `String.prototype.split("\n")`: the pieces between newlines (at least one). */
  function Split(s: string): (r: seq<string>)
    ensures |r| >= 1
  {
    if s == [] then [""]
    else if s[0] == '\n' then [""] + Split(s[1..])
    else
      var rest := Split(s[1..]);
      [[s[0]] + rest[0]] + rest[1..]
  }

  lemma {:induction false} SplitNoNewline(x: string, rest: string)
    requires '\n' !in x
    ensures Split(x) == [x]
    ensures Split(x + "\n" + rest) == [x] + Split(rest)
  {
    if x != [] {
      SplitNoNewline(x[1..], rest);
      assert (x + "\n" + rest)[1..] == x[1..] + "\n" + rest;
      assert [x[0]] + x[1..] == x;
    } else {
      assert x + "\n" + rest == "\n" + rest;
      assert ("\n" + rest)[1..] == rest;
    }
  }

  /** Joining lines that hold no newline and splitting the result gives the lines back. */
  lemma {:induction false} SplitJoin(parts: seq<string>)
    requires parts != []
    requires forall i | 0 <= i < |parts| :: '\n' !in parts[i]
    ensures Split(Join(parts, "\n")) == parts
  {
    if |parts| == 1 {
      SplitNoNewline(parts[0], "");
    } else {
      SplitJoin(parts[1..]);
      SplitNoNewline(parts[0], Join(parts[1..], "\n"));
      assert [parts[0]] + parts[1..] == parts;
    }
  }

  /**
   * The prompt is the fixed instructions, then "Search History:", then one
   * line "- <query>" per entry, in the order of the history. When no query
   * holds a newline the history section splits back into exactly those lines.
   */
  lemma PromptLines(history: seq<HistoryEntry>)
    requires history != []
    requires forall i | 0 <= i < |history| :: '\n' !in QueryText(history[i])
    ensures Split(HistorySection(history)) == Lines(history)
  {
    LinesWithoutNewline(history);
    SplitJoin(Lines(history));
  }

  lemma LinesWithoutNewline(history: seq<HistoryEntry>)
    requires forall i | 0 <= i < |history| :: '\n' !in QueryText(history[i])
    ensures forall i | 0 <= i < |history| :: '\n' !in Lines(history)[i]
  {
    forall i | 0 <= i < |history| ensures '\n' !in Lines(history)[i] {
      NoNewlineInLine(history[i]);
    }
  }

  lemma NoNewlineInLine(e: HistoryEntry)
    requires '\n' !in QueryText(e)
    ensures '\n' !in Line(e)
  {
    assert Line(e) == "- " + QueryText(e);
    forall i | 0 <= i < |Line(e)| ensures Line(e)[i] != '\n' {
      if i >= 2 { assert Line(e)[i] == QueryText(e)[i - 2]; }
    }
  }

  /** An empty history gives an empty history section. */
  lemma EmptyHistorySection()
    ensures HistorySection([]) == ""
  {
    assert Lines([]) == [];
  }

  /** Three backticks start at position `i` of `s`. */
  predicate FenceAt(s: string, i: int)
  {
    0 <= i && i + 3 <= |s| && s[i] == '`' && s[i + 1] == '`' && s[i + 2] == '`'
  }

  /**
   * `text.replace(/```json\n|```/g, '')`: scanning left to right, every
   * occurrence of the first alternative, else of the second, is deleted.
   */
  function StripFences(s: string): string
  {
    if s == [] then ""
    else if |s| >= 8 && s[..8] == "```json\n" then StripFences(s[8..])
    else if |s| >= 3 && s[..3] == "```" then StripFences(s[3..])
    else [s[0]] + StripFences(s[1..])
  }

  /** A text without backticks passes through StripFences unchanged. */
  lemma {:induction false} StripFencesWithoutBackticks(s: string)
    requires '`' !in s
    ensures StripFences(s) == s
  {
    if s != [] {
      assert s[0] != '`';
      assert '`' !in s[1..];
      StripFencesWithoutBackticks(s[1..]);
    }
  }

  /** A text that does not start with a backtick keeps its first character. */
  lemma StripFencesHead(s: string)
    requires s != [] && s[0] != '`'
    ensures StripFences(s) != [] && StripFences(s)[0] == s[0]
  {
  }

  /** A text starting with one backtick and then another character keeps both. */
  lemma StripFencesHeadPair(s: string)
    requires |s| >= 2 && s[0] == '`' && s[1] != '`'
    ensures |StripFences(s)| >= 2 && StripFences(s)[..2] == s[..2]
  {
    StripFencesHead(s[1..]);
  }

  /** After StripFences no three backticks remain anywhere. */
  lemma {:induction false} StripFencesLeavesNoFence(s: string)
    ensures forall i :: !FenceAt(StripFences(s), i)
  {
    if s == [] {
    } else if |s| >= 8 && s[..8] == "```json\n" {
      StripFencesLeavesNoFence(s[8..]);
    } else if |s| >= 3 && s[..3] == "```" {
      StripFencesLeavesNoFence(s[3..]);
    } else {
      var rest := StripFences(s[1..]);
      StripFencesLeavesNoFence(s[1..]);
      var r := [s[0]] + rest;
      assert StripFences(s) == r;
      // Only a fence at position 0 could be new.
      forall i ensures !FenceAt(r, i) {
        if i > 0 {
          assert FenceAt(r, i) == FenceAt(rest, i - 1);
        } else if s[0] == '`' {
          // s does not start with three backticks.
          if |s| == 1 {
            assert rest == [];
          } else if s[1] != '`' {
            StripFencesHead(s[1..]);
          } else if |s| == 2 {
            assert s[1..][1..] == [];
            assert rest == [s[1]] + StripFences(s[1..][1..]);
          } else {
            assert s[2] != '`' by { assert s[..3] != "```"; }
            StripFencesHeadPair(s[1..]);
            assert rest[1] == s[2];
          }
        }
      }
    }
  }

  /** A text with no three backticks passes through StripFences unchanged. */
  lemma {:induction false} StripFencesWithoutFence(s: string)
    requires forall i :: !FenceAt(s, i)
    ensures StripFences(s) == s
  {
    if s != [] {
      assert !FenceAt(s, 0);
      forall i ensures !FenceAt(s[1..], i) {
        assert FenceAt(s[1..], i) ==> FenceAt(s, i + 1);
      }
      StripFencesWithoutFence(s[1..]);
    }
  }

  /** Stripping twice is stripping once. */
  lemma StripFencesIdempotent(s: string)
    ensures StripFences(StripFences(s)) == StripFences(s)
  {
    StripFencesLeavesNoFence(s);
    StripFencesWithoutFence(StripFences(s));
  }

  /** The characters `String.prototype.trim` removes: white space and line terminators. */
  predicate IsWhitespace(c: char)
  {
    || c == '\t' || c == '\n' || c == '\U{000B}' || c == '\U{000C}' || c == '\r' || c == ' '
    || c == '\U{00A0}' || c == '\U{1680}' || ('\U{2000}' <= c <= '\U{200A}')
    || c == '\U{2028}' || c == '\U{2029}' || c == '\U{202F}' || c == '\U{205F}'
    || c == '\U{3000}' || c == '\U{FEFF}'
  }

  /** Drops leading white space: the result is a suffix that starts with a non-space. */
  function TrimStart(s: string): (r: string)
    ensures |r| <= |s| && r == s[|s| - |r|..]
    ensures forall i | 0 <= i < |s| - |r| :: IsWhitespace(s[i])
    ensures r != [] ==> !IsWhitespace(r[0])
  {
    if s != [] && IsWhitespace(s[0]) then TrimStart(s[1..]) else s
  }

  /** Drops trailing white space: the result is a prefix that ends with a non-space. */
  function TrimEnd(s: string): (r: string)
    ensures |r| <= |s| && r == s[..|r|]
    ensures forall i | |r| <= i < |s| :: IsWhitespace(s[i])
    ensures r != [] ==> !IsWhitespace(r[|r| - 1])
  {
    if s != [] && IsWhitespace(s[|s| - 1]) then TrimEnd(s[..|s| - 1]) else s
  }

  function Trim(s: string): string
  {
    TrimEnd(TrimStart(s))
  }

  /** The reply text as handed to `JSON.parse`. */
  function CleanReply(text: string): string
  {
    Trim(StripFences(text))
  }

  /** Cleaning a reply with no backticks only trims it. */
  lemma CleanReplyWithoutBackticks(text: string)
    requires '`' !in text
    ensures CleanReply(text) == Trim(text)
  {
    StripFencesWithoutBackticks(text);
  }

  /**
   * `processSearchHistory`: asks the model about the prompt and parses the
   * cleaned reply. Any failure of the call or of the parse yields Fallback;
   * nothing is thrown.
   */
  function ProcessSearchHistory(
    history: seq<HistoryEntry>,
    model: string -> ModelReply,
    parse: string -> Option<Analysis>): (r: Analysis)
    ensures model(Prompt(history)).Failed? ==> r == Fallback
    ensures model(Prompt(history)).Reply? ==>
              r == parse(CleanReply(model(Prompt(history)).text)).GetOr(Fallback)
  {
    match model(Prompt(history))
    case Failed => Fallback
    case Reply(text) =>
      match parse(CleanReply(text))
      case None => Fallback
      case Some(result) => result
  }
}
