/**
 * The hotkey settings logic of src/app.rs, on values: how the key box of a
 * draft chord is normalised after an edit, the duplicate-chord check that
 * "Apply" runs, the lookup from a fired chord to its action, and the pen-size
 * clamp. The SnapRustApp class (app.dfy) calls these on its own fields.
 */
module Settings {
  import opened Wrappers
  import opened HotkeysUtils

  /** Number of bytes UTF-8 uses for a character. */
  function Utf8Width(c: char): (r: nat)
    ensures 1 <= r <= 4
    ensures r == 1 <==> (c as int) < 0x80
  {
    if (c as int) < 0x80 then 1
    else if (c as int) < 0x800 then 2
    else if (c as int) < 0x1_0000 then 3
    else 4
  }

  /** `String::len`: the length of a string in bytes of UTF-8, not in characters. */
  function ByteLen(s: string): (r: nat)
    ensures r >= |s|
    ensures r == 0 <==> |s| == 0
  {
    if |s| == 0 then 0 else ByteLen(s[..|s| - 1]) + Utf8Width(s[|s| - 1])
  }

  /**
   * The key box edit of the settings panel as the source writes it. The box
   * held `previous` and now holds `edited`. An emptied box gets `previous`
   * back; then a box longer than one byte keeps the character that was typed
   * next to the old one, provided the second character names a key, and
   * otherwise gets `previous` back; the result is upper-cased. The length
   * test counts bytes while the two characters are then taken with
   * `chars()`, so a box holding a single character outside ASCII passes the
   * test and the second `unwrap` stops the program: that outcome is `None`.
   */
  function KeyEditAsWritten(previous: string, edited: string): (r: Option<string>)
    ensures r.None? <==> var box := if |edited| == 0 then previous else edited;
                         |box| == 1 && ByteLen(box) > 1
  {
    var box := if ByteLen(edited) == 0 then previous else edited;
    var kept :=
      if ByteLen(box) > 1 then
        if |box| < 2 then None
        else
          var first, second := [box[0]], [box[1]];
          if StringToKey(second).Some? then
            if first == previous then Some(second)
            else if second == previous then Some(first)
            else Some(box)
          else Some(previous)
      else Some(box);
    if kept.None? then None else Some(Upper(kept.value))
  }

  /** Typing "é" into the box stops the program. */
  lemma KeyEditAsWrittenPanicsOnWideChar()
    ensures KeyEditAsWritten("C", "\U{00E9}") == None
  {
    assert ByteLen("\U{00E9}") == 2;
  }

  /**
   * Typing "1" in front of "C", or selecting "C" and typing "1" over it,
   * leaves "1" in the box, which names no key;
   * "Apply" does not look at it, and registering it stops the program at
   * `string_to_key(..).unwrap()`.
   */
  lemma KeyEditAsWrittenAcceptsNonKey()
    ensures KeyEditAsWritten("C", "1C") == Some("1")
    ensures KeyEditAsWritten("C", "1") == Some("1")
    ensures StringToKey("1") == None
  {
    var e := "1C";
    assert ByteLen(e) == 2;
    assert [e[1]] == "C" && [e[0]] == "1";
    assert StringToKey("C") == Some(KeyC);
    assert Upper("1") == "1";
  }

  /** The character that an edit of the key box proposes, counting characters rather than bytes. */
  function Candidate(previous: string, edited: string): string {
    if |edited| == 0 then previous
    else if |edited| > 1 then
      var first, second := [edited[0]], [edited[1]];
      if StringToKey(second).Some? then
        if first == previous then second
        else if second == previous then first
        else edited
      else previous
    else edited
  }

  /**
   * The key box edit with both faults corrected: lengths count characters,
   * and a candidate that names no key is refused in favour of `previous`.
   * The box ends up holding the letter of the key the candidate names, or
   * `previous` when it names none; so a box that held a key name holds a key
   * name afterwards, and every draft "Apply" can commit parses.
   */
  function KeyEdit(previous: string, edited: string): (r: string)
    ensures IsKeyName(previous) ==> IsKeyName(r)
    ensures StringToKey(Candidate(previous, edited)).Some? ==>
              r == [KeyLetter(StringToKey(Candidate(previous, edited)).value)]
    ensures StringToKey(Candidate(previous, edited)).None? ==> r == previous
  {
    var c := Candidate(previous, edited);
    StringToKeyMatchesUpper(c);
    if StringToKey(c).Some? then Upper(c) else previous
  }

  /** Emptying the box restores the key it held. */
  lemma KeyEditOfEmpty(previous: string)
    requires IsKeyName(previous)
    ensures KeyEdit(previous, "") == previous
  {
    UpperKeepsKeyName(previous);
  }

  /**
   * The edit runs on every frame the panel is shown, typed into or not; a
   * box left alone keeps its key.
   */
  lemma KeyEditOfUnchanged(previous: string)
    requires IsKeyName(previous)
    ensures KeyEdit(previous, previous) == previous
  {
    UpperKeepsKeyName(previous);
  }

  /** A letter typed after or before the current key replaces it, in upper case. */
  lemma KeyEditReplaces(previous: string, c: char)
    requires IsKeyName(previous)
    requires 'A' <= c <= 'Z' || 'a' <= c <= 'z'
    ensures KeyEdit(previous, previous + [c]) == [UpperChar(c)]
    ensures KeyEdit(previous, [c] + previous) == [UpperChar(c)]
  {
    var after, before := previous + [c], [c] + previous;
    assert [after[0]] == previous && [after[1]] == [c];
    assert [before[0]] == [c] && [before[1]] == previous;
    assert IsKeyName(Upper([c]));
    UpperKeepsKeyName(previous);
  }

  /**
   * The corrected edit differs from the source only where the source goes
   * wrong: whenever the source's edit completes with a key name, the
   * corrected edit gives the same one.
   */
  lemma KeyEditAgreesWhenSourceSucceeds(previous: string, edited: string)
    requires KeyEditAsWritten(previous, edited).Some?
    requires StringToKey(KeyEditAsWritten(previous, edited).value).Some?
    ensures KeyEdit(previous, edited) == KeyEditAsWritten(previous, edited).value
  {
    var c := Candidate(previous, edited);
    assert KeyEditAsWritten(previous, edited).value == Upper(c);
    StringToKeyIgnoresCase(c);
  }

  /** A staged chord: the draft modifier name and the draft key name, as the panel holds them. */
  type Draft = (string, string)

  predicate PairwiseDistinct(drafts: seq<Draft>) {
    forall i, j :: 0 <= i < j < |drafts| ==> drafts[i] != drafts[j]
  }

  /**
   * The check "Apply" runs before committing: each draft pair is inserted
   * into a hash set, and the first insertion that finds its pair already
   * present makes the configuration invalid and ends the loop. The result is
   * valid exactly when no two hotkeys share a draft chord.
   */
  method DraftChordsDistinct(drafts: seq<Draft>) returns (valid: bool)
    ensures valid <==> PairwiseDistinct(drafts)
  {
    var encountered: set<Draft> := {};
    valid := true;
    var n := 0;
    while n < |drafts|
      invariant 0 <= n <= |drafts|
      invariant encountered == set k | 0 <= k < n :: drafts[k]
      invariant PairwiseDistinct(drafts[..n])
      invariant valid
    {
      var inserted := drafts[n] !in encountered;
      encountered := encountered + {drafts[n]};
      if !inserted {
        var k :| 0 <= k < n && drafts[k] == drafts[n];
        assert drafts[k] == drafts[n];
        valid := false;
        break;
      }
      assert drafts[..n + 1] == drafts[..n] + [drafts[n]];
      n := n + 1;
    }
    assert valid ==> drafts[..n] == drafts;
  }

  /** A registered binding: the chord the hotkey listens for and the action label it carries. */
  type Binding = (HotKey, string)

  /**
   * The label of the last binding whose chord is `fired`, or `None` when no
   * binding has that chord.
   */
  function LastMatch(bindings: seq<Binding>, fired: HotKey): (r: Option<string>)
    ensures r.None? <==> forall k :: 0 <= k < |bindings| ==> bindings[k].0 != fired
    ensures r.Some? ==> exists k :: 0 <= k < |bindings| && bindings[k] == (fired, r.value)
                                    && forall l :: k < l < |bindings| ==> bindings[l].0 != fired
  {
    if |bindings| == 0 then None
    else if bindings[|bindings| - 1].0 == fired then Some(bindings[|bindings| - 1].1)
    else LastMatch(bindings[..|bindings| - 1], fired)
  }

  /**
   * The dispatch loop of the hotkey listener: every binding whose chord is
   * the fired one overwrites the action, so the last match wins.
   */
  method Resolve(bindings: seq<Binding>, fired: HotKey) returns (action: Option<string>)
    ensures action == LastMatch(bindings, fired)
  {
    action := None;
    for n := 0 to |bindings|
      invariant action == LastMatch(bindings[..n], fired)
    {
      assert bindings[..n + 1][..n] == bindings[..n];
      if bindings[n].0 == fired {
        action := Some(bindings[n].1);
      }
    }
    assert bindings[..|bindings|] == bindings;
  }

  const MinPenSize: nat := 1
  const MaxPenSize: nat := 30

  function Distance(a: int, b: int): nat { if a < b then b - a else a - b }

  /** The pen size the side panel keeps after an edit: the nearest size in [1, 30]. */
  function ClampPenSize(n: nat): (r: nat)
    ensures MinPenSize <= r <= MaxPenSize
    ensures MinPenSize <= n <= MaxPenSize ==> r == n
    ensures forall m :: MinPenSize <= m <= MaxPenSize ==> Distance(r, n) <= Distance(m, n)
  {
    if n < MinPenSize then MinPenSize
    else if n > MaxPenSize then MaxPenSize
    else n
  }
}
