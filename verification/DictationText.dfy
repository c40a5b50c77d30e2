/**
 Text of a dictation: joining what recognition heard, session by session, and the tidied text that
 stands in for it.
 */
module DictationText {
  import opened Common

  // Trimming and joining

  predicate IsSpace(c: char)
  {
    || '\t' <= c <= '\r' || c == ' ' || c == '\U{00A0}' || c == '\U{1680}'
    || '\U{2000}' <= c <= '\U{200A}' || c == '\U{2028}' || c == '\U{2029}'
    || c == '\U{202F}' || c == '\U{205F}' || c == '\U{3000}' || c == '\U{FEFF}'
  }

  function TrimEnd(s: string): string
  {
    if s != "" && IsSpace(s[|s| - 1]) then TrimEnd(s[..|s| - 1]) else s
  }

  function TrimStart(s: string): string
  {
    if s != "" && IsSpace(s[0]) then TrimStart(s[1..]) else s
  }

  function Trim(s: string): string { TrimStart(TrimEnd(s)) }

  predicate Trimmed(s: string) { s != "" ==> !IsSpace(s[0]) && !IsSpace(s[|s| - 1]) }

  lemma {:induction false} TrimEndCut(s: string)
    ensures TrimEnd(s) <= s && forall i | |TrimEnd(s)| <= i < |s| :: IsSpace(s[i])
    ensures TrimEnd(s) != "" ==> !IsSpace(TrimEnd(s)[|TrimEnd(s)| - 1])
  {
    if s != "" && IsSpace(s[|s| - 1]) {
      TrimEndCut(s[..|s| - 1]);
    }
  }

  lemma {:induction false} TrimStartCut(s: string)
    ensures var r := TrimStart(s);
            |r| <= |s| && r == s[|s| - |r|..] && forall i | 0 <= i < |s| - |r| :: IsSpace(s[i])
    ensures TrimStart(s) != "" ==> !IsSpace(TrimStart(s)[0])
  {
    if s != "" && IsSpace(s[0]) {
      TrimStartCut(s[1..]);
      assert forall i | 0 < i < |s| - |TrimStart(s)| :: s[i] == s[1..][i - 1];
    }
  }

  lemma CutsSpaces(s: string, t: string, from: nat)
    requires t <= s && (forall i | |t| <= i < |s| :: IsSpace(s[i])) && from <= |t| && forall i | 0 <= i < from :: IsSpace(t[i])
    ensures forall i | 0 <= i < from || |t| <= i < |s| :: IsSpace(s[i])
  {
    assert forall i | 0 <= i < |t| :: s[i] == t[i];
  }

  /** Trimming cuts white space and nothing else, and leaves none at either end. */
  lemma TrimCut(s: string) returns (from: nat)
    ensures from + |Trim(s)| <= |s| && Trim(s) == s[from..from + |Trim(s)|]
    ensures forall i | 0 <= i < from || from + |Trim(s)| <= i < |s| :: IsSpace(s[i])
    ensures Trimmed(Trim(s))
  {
    var t := TrimEnd(s);
    TrimEndCut(s);
    TrimStartCut(t);
    from := |t| - |Trim(s)|;
    DropOfTake(s, |t|, from);
    CutsSpaces(s, t, from);
    TrimmedEnds(t);
  }

  lemma TrimmedEnds(t: string)
    requires t != "" ==> !IsSpace(t[|t| - 1])
    ensures Trimmed(TrimStart(t))
  {
    TrimStartCut(t);
    var r := TrimStart(t);
    assert r != "" ==> r[|r| - 1] == t[|t| - 1];
  }

  /** Two pieces of text with a space between, or the one that is not empty. */
  function Glue(a: string, b: string): string
  {
    if a == "" then b else if b == "" then a else a + " " + b
  }

  /** The parts that hold more than white space, trimmed. */
  function Kept(parts: seq<string>): seq<string>
  {
    if parts == [] then []
    else
      var last := Trim(parts[|parts| - 1]);
      Kept(parts[..|parts| - 1]) + if last == "" then [] else [last]
  }

  function Spaced(words: seq<string>): string
  {
    if words == [] then "" else if |words| == 1 then words[0]
    else Spaced(words[..|words| - 1]) + " " + words[|words| - 1]
  }

  function JoinWords(parts: seq<string>): string { Spaced(Kept(parts)) }

  /** The box text with a transcript added after it. */
  function AppendTranscription(base: string, transcript: string): string
  {
    Glue(TrimEnd(base), Trim(transcript))
  }

  lemma GlueTrimmed(a: string, b: string)
    requires Trimmed(a) && Trimmed(b)
    ensures Trimmed(Glue(a, b)) && (Glue(a, b) == "" <==> a == "" && b == "")
  {
    var r := Glue(a, b);
    if a != "" && b != "" {
      assert r[0] == a[0] && r[|r| - 1] == b[|b| - 1];
    }
  }

  lemma KeptSnoc(parts: seq<string>, x: string)
    ensures Kept(parts + [x]) == Kept(parts) + if Trim(x) == "" then [] else [Trim(x)]
  {
    assert (parts + [x])[..|parts|] == parts;
  }

  lemma SpacedSnoc(words: seq<string>, w: string)
    ensures Spaced(words + [w]) == if words == [] then w else Spaced(words) + " " + w
  {
    assert (words + [w])[..|words|] == words;
  }

  /** Joining one more part glues its trimmed text on. */
  lemma JoinSnoc(parts: seq<string>, x: string)
    ensures JoinWords(parts + [x]) == Glue(JoinWords(parts), Trim(x))
  {
    KeptSnoc(parts, x);
    SpacedSnoc(Kept(parts), Trim(x));
    JoinTrimmed(parts);
    assert Kept(parts) + [] == Kept(parts);
  }

  lemma {:induction false} JoinTrimmed(parts: seq<string>)
    ensures Trimmed(JoinWords(parts)) && (JoinWords(parts) == "" <==> Kept(parts) == [])
  {
    if parts != [] {
      var front, x := parts[..|parts| - 1], parts[|parts| - 1];
      assert parts == front + [x];
      JoinTrimmed(front);
      KeptSnoc(front, x);
      SpacedSnoc(Kept(front), Trim(x));
      var _ := TrimCut(x);
      GlueTrimmed(JoinWords(front), Trim(x));
      assert Kept(front) + [] == Kept(front);
    }
  }

  lemma TrimTrimmed(s: string)
    requires Trimmed(s)
    ensures Trim(s) == s
  {
  }

  lemma JoinOne(a: string)
    requires Trimmed(a)
    ensures JoinWords([a]) == a
  {
    TrimTrimmed(a);
    KeptSnoc([], a);
    assert [] + [a] == [a];
    SpacedSnoc([], a);
  }

  lemma JoinTwo(a: string, b: string)
    requires Trimmed(a)
    ensures JoinWords([a, b]) == Glue(a, Trim(b))
  {
    JoinOne(a);
    JoinSnoc([a], b);
    PairIsConcat(a, b);
  }

  /** Joining what is already joined with one more part is joining all of them. */
  lemma JoinNested(parts: seq<string>, x: string)
    ensures JoinWords([JoinWords(parts), x]) == JoinWords(parts + [x])
  {
    JoinTrimmed(parts);
    JoinTwo(JoinWords(parts), x);
    JoinSnoc(parts, x);
  }

  /** What was in the box stays at the front, up to its trailing white space, and the transcript follows it. */
  lemma AppendKeepsBase(base: string, transcript: string)
    ensures TrimEnd(base) <= AppendTranscription(base, transcript)
    ensures Trim(transcript) != "" ==>
              AppendTranscription(base, transcript)
              == TrimEnd(base) + (if TrimEnd(base) == "" then "" else " ") + Trim(transcript)
  {
  }

  // The words heard

  datatype Words = Words(committed: string, current: string)

  function Text(w: Words): string { JoinWords([w.committed, w.current]) }

  function Heard(w: Words, words: string): Words { w.(current := Trim(words)) }

  /** What a finished session adds: its final words, or those heard before if there are none. */
  function FinalWords(w: Words, words: string): string
  {
    if Trim(words) == "" then w.current else Trim(words)
  }

  function Finished(w: Words, words: string): Words
  {
    Words(JoinWords([w.committed, FinalWords(w, words)]), "")
  }

  function Interrupted(w: Words): Words { Words(JoinWords([w.committed, w.current]), "") }

  /** Each partial result stands for the whole session so far: the text depends on the latest one alone. */
  lemma HeardReplaces(w: Words, earlier: string, words: string)
    ensures Heard(Heard(w, earlier), words) == Heard(w, words)
    ensures Trimmed(w.committed) ==> Text(Heard(w, words)) == JoinWords([w.committed, words])
  {
    var _ := TrimCut(words);
    TrimTrimmed(Trim(words));
    if Trimmed(w.committed) {
      JoinTwo(w.committed, Trim(words));
      JoinTwo(w.committed, words);
    }
  }

  /** However a session ends without a final text, nothing heard is lost or changed. */
  lemma EndingKeepsText(w: Words)
    requires Trimmed(w.committed) && Trimmed(w.current)
    ensures Text(Interrupted(w)) == Text(w) && Interrupted(w) == Finished(w, "")
  {
    JoinTrimmed([w.committed, w.current]);
    JoinTwo(JoinWords([w.committed, w.current]), "");
    TrimTrimmed("");
  }

  /** The words of a dictation, updated in place. */
  class DictatedText {
    var committed: string
    var current: string

    ghost function View(): Words
      reads this
    {
      Words(committed, current)
    }

    constructor (keep: string)
      ensures View() == Words(Trim(keep), "")
    {
      committed, current := Trim(keep), "";
    }

    function Said(): (r: string)
      reads this
      ensures r == Text(View())
    {
      JoinWords([committed, current])
    }

    method Partial(words: string)
      modifies this
      ensures View() == Heard(old(View()), words)
    {
      current := Trim(words);
    }

    method Result(words: string)
      modifies this
      ensures View() == Finished(old(View()), words)
    {
      var last := Trim(words);
      committed := JoinWords([committed, if last != "" then last else current]);
      current := "";
    }

    method Interrupt()
      modifies this
      ensures View() == Interrupted(old(View()))
    {
      committed := JoinWords([committed, current]);
      current := "";
    }
  }

  // Tidying while the speaker still talks

  datatype Answer = Answer(text: string, tidied: bool)

  datatype Progress = Progress(
    tidiedFrom: Option<string>,
    tidied: string,
    asking: Option<string>,
    failedOn: Option<string>)

  const NO_PROGRESS := Progress(None, "", None, None)

  /** What a round would carry, if it is worth sending. `voiced` says whether they hold any letter or digit. */
  function Next(p: Progress, heard: string, voiced: bool): Option<string>
  {
    var words := Trim(heard);
    if !voiced || Some(words) == p.tidiedFrom || Some(words) == p.failedOn || p.asking.Some? then None else Some(words)
  }

  /** An answer to a request other than the one out. */
  predicate Stale(p: Progress, words: string) { p.asking.Some? && p.asking != Some(words) }

  /** An answer that gives new text to show. */
  predicate Takes(p: Progress, words: string, answer: Answer)
  {
    !Stale(p, words) && answer.tidied && Trim(answer.text) != ""
  }

  function Answered(p: Progress, words: string, answer: Answer): Progress
  {
    if Stale(p, words) then p
    else if !Takes(p, words, answer) then p.(asking := None, failedOn := Some(words))
    else p.(asking := None, tidiedFrom := Some(words), tidied := Trim(answer.text))
  }

  function Dropped(p: Progress, words: string): Progress
  {
    if p.asking == Some(words) then p.(asking := None) else p
  }

  /** The tidied text, when it covers exactly these words. */
  function Ready(p: Progress, heard: string): Option<string>
  {
    if p.tidiedFrom == Some(Trim(heard)) then Some(p.tidied) else None
  }

  /**
   Words that were sent are sent again only if their request was dropped: an answer, good or bad,
   settles them until something else is said.
   */
  lemma OnlyDroppedAreResent(p: Progress, heard: string, answer: Answer)
    requires Next(p, heard, true).Some?
    ensures var words := Next(p, heard, true).value;
            var out := p.(asking := Some(words));
            && Next(out, heard, true) == None
            && Next(Dropped(out, words), heard, true) == Some(words)
            && Next(Answered(out, words, answer), heard, true) == None
            && (Takes(out, words, answer) <==> Ready(Answered(out, words, answer), heard).Some?)
  {
  }

  class ProgressiveTidy {
    var tidiedFrom: Option<string>
    var tidied: string
    var asking: Option<string>
    var failedOn: Option<string>

    ghost function View(): Progress
      reads this
    {
      Progress(tidiedFrom, tidied, asking, failedOn)
    }

    constructor ()
      ensures View() == NO_PROGRESS
    {
      tidiedFrom, tidied, asking, failedOn := None, "", None, None;
    }

    method Send(heard: string, voiced: bool) returns (words: Option<string>)
      modifies this
      ensures words == Next(old(View()), heard, voiced)
      ensures View() == if words.Some? then old(View()).(asking := words) else old(View())
    {
      var said := Trim(heard);
      if !voiced || Some(said) == tidiedFrom || Some(said) == failedOn || asking.Some? {
        return None;
      }
      asking := Some(said);
      return asking;
    }

    method TakeAnswer(words: string, answer: Answer) returns (changed: bool)
      modifies this
      ensures View() == Answered(old(View()), words, answer)
      ensures changed <==> tidied != old(tidied)
    {
      if asking.Some? && asking != Some(words) {
        return false;
      }
      asking := None;
      var text := Trim(answer.text);
      if !answer.tidied || text == "" {
        failedOn := Some(words);
        return false;
      }
      tidiedFrom := Some(words);
      changed := tidied != text;
      tidied := text;
    }

    method Drop(words: string)
      modifies this
      ensures View() == Dropped(old(View()), words)
    {
      if asking == Some(words) {
        asking := None;
      }
    }
  }
}
