/** The gamemaster's mirror of the computer puzzle's code entry
    (`client/src/components/PasswordAdminView.tsx`): a border colour and five
    character boxes. */
module PasswordAdminView {
  import opened JsStrings

  /** `PASSWORD_LENGTH`: the code has five characters. */
  const PasswordLength := 5

  /** `getBorderClass`: a correct code wins regardless of what was typed; a
      full-length entry that is not correct is flagged; anything else is
      still being typed. Length is JavaScript's, in UTF-16 code units. */
  function BorderClass(entered: string, isCorrect: bool): (r: string)
    ensures isCorrect ==> r == "correct"
    ensures r == "incorrect" <==> !isCorrect && Utf16Length(entered) == PasswordLength
    ensures r == "default" <==> !isCorrect && Utf16Length(entered) != PasswordLength
  {
    if isCorrect then "correct"
    else if Utf16Length(entered) == PasswordLength then "incorrect"
    else "default"
  }

  /** Two characters outside the Basic Multilingual Plane count double: three
      characters can already make a full-length, incorrect entry. */
  lemma AstralEntryCountsDouble()
    ensures |"\U{1F600}\U{1F600}a"| == 3
    ensures BorderClass("\U{1F600}\U{1F600}a", false) == "incorrect"
  {
    var s := "\U{1F600}\U{1F600}a";
    assert s[..1][..0] == [] && s[..1][0] as int >= 0x1_0000;
    assert Utf16Length(s[..1]) == 2;
    assert s[..2][..1] == s[..1] && s[..2][1] as int >= 0x1_0000;
    assert Utf16Length(s[..2]) == 4;
    assert s[..|s| - 1] == s[..2] && s[2] == 'a';
  }

  /** For an entry of ordinary characters the length is the character count. */
  lemma BorderClassBmp(entered: string)
    requires forall i :: 0 <= i < |entered| ==> entered[i] as int < 0x1_0000
    ensures BorderClass(entered, false) == "incorrect" <==> |entered| == PasswordLength
  {
  }

  /** The values a game reports when nothing real has been typed yet. */
  predicate IsPlaceholder(s: string)
  {
    s == "" || IsBlank(s) || Includes(s, "(vide") || s == "undefined" || s == "null"
  }

  /** `cleanPassword`: the entered text, or nothing when it is a placeholder. */
  function CleanPassword(entered: string): (r: string)
    ensures r == entered || r == ""
    ensures r == "" <==> IsPlaceholder(entered)
  {
    if entered != "" && !IsBlank(entered) && !Includes(entered, "(vide")
       && entered != "undefined" && entered != "null"
    then entered
    else ""
  }

  /** Cleaning is idempotent: a cleaned entry is never a placeholder again. */
  lemma CleanPasswordIdempotent(entered: string)
    ensures CleanPassword(CleanPassword(entered)) == CleanPassword(entered)
  {
  }

  /** A non-empty cleaned entry holds a visible (non-white-space) character. */
  lemma CleanPasswordVisible(entered: string)
    requires CleanPassword(entered) != ""
    ensures exists i :: 0 <= i < |CleanPassword(entered)| && !IsWhiteSpace(CleanPassword(entered)[i])
  {
  }

  /** The five boxes: box `i` shows character `i` of the cleaned entry, or `_`
      once the entry is shorter than that. */
  function Boxes(clean: string): (r: seq<char>)
    ensures |r| == PasswordLength
    ensures forall i :: 0 <= i < PasswordLength ==> r[i] == if i < |clean| then clean[i] else '_'
  {
    seq(PasswordLength, i requires 0 <= i < PasswordLength => if i < |clean| then clean[i] else '_')
  }

  /** Characters past the fifth are never shown: the boxes depend only on the
      first five characters. */
  lemma BoxesIgnoreTail(s: string, tail: string)
    requires |s| >= PasswordLength
    ensures Boxes(s + tail) == Boxes(s)
  {
  }

  /** A five-character entry is shown exactly; a shorter one is padded with `_`. */
  lemma {:induction false} BoxesShowEntry(s: string)
    requires |s| <= PasswordLength
    ensures Boxes(s) == s + Repeat('_', PasswordLength - |s|)
  {
    var pad := Repeat('_', PasswordLength - |s|);
    assert forall i :: |s| <= i < PasswordLength ==> (s + pad)[i] == pad[i - |s|];
  }

  /** What the component renders: the border class and the box contents. */
  datatype View = View(borderClass: string, boxes: seq<char>)

  function Render(entered: string, isCorrect: bool): (v: View)
    ensures v.borderClass == BorderClass(entered, isCorrect)
    ensures v.boxes == Boxes(CleanPassword(entered))
  {
    View(BorderClass(entered, isCorrect), Boxes(CleanPassword(entered)))
  }

  /** A placeholder value renders as five empty boxes. */
  lemma PlaceholderShowsBlanks(entered: string)
    requires IsPlaceholder(entered)
    ensures Render(entered, false).boxes == "_____"
  {
  }
}
