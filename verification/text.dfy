/**
 Lower-casing of chat text and recognition of the `/autoplay` command.

 The bot compares `content.toLowerCase()` against the literal `/autoplay`.
 Lower-casing is modelled on the ASCII letters only: no other character
 lower-cases to one of the characters of `/autoplay`, so the command test
 is unaffected by that restriction.
 */
module Text {

  /** The exact command text, as it must read after lower-casing. */
  const AutoplayCommand: string := "/autoplay"

  /** The same command written entirely in upper case. */
  const AutoplayCommandUpper: string := "/AUTOPLAY"

  predicate IsUpper(c: char) {
    'A' <= c <= 'Z'
  }

  /** Lower-case one character: `A`..`Z` move to `a`..`z`, everything else is kept. */
  function LowerChar(c: char): char {
    if IsUpper(c) then (c as int + 32) as char else c
  }

  /** `toLowerCase`, character by character. */
  function Lower(s: string): (r: string)
    ensures |r| == |s|
    ensures forall i :: 0 <= i < |s| ==> r[i] == LowerChar(s[i])
    ensures forall i :: 0 <= i < |r| ==> !IsUpper(r[i])
    decreases |s|
  {
    if s == [] then [] else [LowerChar(s[0])] + Lower(s[1..])
  }

  /** Lower-casing twice is the same as lower-casing once. */
  lemma LowerIdempotent(s: string)
    ensures Lower(Lower(s)) == Lower(s)
  {
  }

  /** The message content that the bot treats as the autoplay toggle command. */
  predicate IsAutoplayCommand(content: string) {
    Lower(content) == AutoplayCommand
  }

  /**
   The command matches exactly the nine-character texts whose every character
   is the lower-case or the upper-case spelling of the command's character at
   that position: case is ignored, but nothing may precede or follow it.
   */
  lemma CommandSpelling(content: string)
    ensures IsAutoplayCommand(content) <==>
      |content| == |AutoplayCommand| &&
      forall i :: 0 <= i < |content| ==>
        content[i] == AutoplayCommand[i] || content[i] == AutoplayCommandUpper[i]
  {
  }

  /** Mixed case still matches the command. */
  lemma CommandExamples()
    ensures IsAutoplayCommand("/AutoPlay")
    ensures IsAutoplayCommand("/AUTOPLAY")
  {
    CommandSpelling("/AutoPlay");
    CommandSpelling("/AUTOPLAY");
  }

  /** Surrounding text, a leading space or a missing slash does not match. */
  lemma NonCommandExamples()
    ensures !IsAutoplayCommand("/autoplay now")
    ensures !IsAutoplayCommand(" /autoplay")
    ensures !IsAutoplayCommand("autoplay")
  {
    CommandSpelling("/autoplay now");
    CommandSpelling(" /autoplay");
    CommandSpelling("autoplay");
  }

  /** Nine characters with one wrong letter do not match either. */
  lemma WrongLetterExample()
    ensures !IsAutoplayCommand("/aut0play")
  {
    CommandSpelling("/aut0play");
    assert "/aut0play"[4] == '0';
  }
}
