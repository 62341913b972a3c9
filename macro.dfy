/**
 * The input sequencer's token language and its one-step semantics. A macro
 * is a list of tokens; a token is one or more `+`-separated parts; a part
 * names a button (lower-cased, so `Y` names `y`) and presses it, or, with a
 * leading `!`, releases it. One step of the sequencer either plays the
 * token under the shared cursor or, past the end, rewinds the cursor.
 */
module Macros {
  import opened Text

  /** The three special-move macros hard-coded in the bot. */
  const Fireball: seq<string> := ["<", "!<", "v+<", "!v+!<", "v", "!v", "v+>", "!v+!>", ">+Y", "!>+!Y"]
  const DragonPunch: seq<string> := [">", "!>", "v+>", "!v+!>", "^+Y", "!^+!Y"]
  const SpinningKick: seq<string> := ["v", "!v", "^+B", "!^+!B"]

  /** The part starts with `!`. */
  predicate IsRelease(part: string)
  {
    |part| > 0 && part[0] == '!'
  }

  /** The attribute a part sets: the part without its `!`, lower-cased. */
  function PartName(part: string): string
  {
    if IsRelease(part) then Lower(part[1..]) else Lower(part)
  }

  /** `setattr(buttn, name, value)` for one part. */
  function SetPart(held: map<string, bool>, part: string): map<string, bool>
  {
    held[PartName(part) := !IsRelease(part)]
  }

  /** The parts applied left to right. */
  function ApplyParts(held: map<string, bool>, parts: seq<string>): map<string, bool>
  {
    if |parts| == 0 then held else SetPart(ApplyParts(held, parts[..|parts| - 1]), parts[|parts| - 1])
  }

  /** The button attributes a token leaves set on a cleared button record. */
  function TokenEffect(token: string): map<string, bool>
  {
    ApplyParts(map[], Split(token, '+'))
  }

  /** The names of the parts, as a set. */
  function Names(parts: seq<string>): set<string>
  {
    if |parts| == 0 then {} else Names(parts[..|parts| - 1]) + {PartName(parts[|parts| - 1])}
  }

  lemma {:induction false} NamesMembership(parts: seq<string>, name: string)
    ensures name in Names(parts) <==> exists k :: 0 <= k < |parts| && PartName(parts[k]) == name
  {
    if |parts| > 0 {
      var init := parts[..|parts| - 1];
      NamesMembership(init, name);
      if name in Names(parts) {
        if name in Names(init) {
          var k :| 0 <= k < |init| && PartName(init[k]) == name;
          assert PartName(parts[k]) == name;
        } else {
          assert PartName(parts[|parts| - 1]) == name;
        }
      } else {
        forall k | 0 <= k < |parts|
          ensures PartName(parts[k]) != name
        {
          if k < |init| {
            assert parts[k] == init[k];
          }
        }
      }
    }
  }

  /** Applying parts adds exactly the parts' names as keys. */
  lemma {:induction false} ApplyPartsKeys(held: map<string, bool>, parts: seq<string>)
    ensures ApplyParts(held, parts).Keys == held.Keys + Names(parts)
  {
    if |parts| > 0 {
      ApplyPartsKeys(held, parts[..|parts| - 1]);
    }
  }

  /** The last part that names a button decides that button's value. */
  lemma {:induction false} ApplyPartsLastWins(held: map<string, bool>, parts: seq<string>, i: nat)
    requires i < |parts|
    requires forall j :: i < j < |parts| ==> PartName(parts[j]) != PartName(parts[i])
    ensures PartName(parts[i]) in ApplyParts(held, parts)
    ensures ApplyParts(held, parts)[PartName(parts[i])] == !IsRelease(parts[i])
  {
    if i < |parts| - 1 {
      var init := parts[..|parts| - 1];
      assert forall j :: i < j < |init| ==> init[j] == parts[j];
      ApplyPartsLastWins(held, init, i);
    }
  }

  /**
   * What a token does to a cleared button record, for its parts `parts`:
   * the keys set are exactly the names of the parts, and a part whose name
   * no later part repeats leaves that name pressed unless the part starts
   * with `!`.
   */
  lemma TokenEffectMeaning(token: string, parts: seq<string>)
    requires parts == Split(token, '+')
    ensures forall name :: name in TokenEffect(token) <==> exists k :: 0 <= k < |parts| && PartName(parts[k]) == name
    ensures forall i :: 0 <= i < |parts| && (forall j :: i < j < |parts| ==> PartName(parts[j]) != PartName(parts[i])) ==>
      TokenEffect(token)[PartName(parts[i])] == !IsRelease(parts[i])
  {
    ApplyPartsKeys(map[], parts);
    forall name | true
      ensures name in TokenEffect(token) <==> exists k :: 0 <= k < |parts| && PartName(parts[k]) == name
    {
      NamesMembership(parts, name);
    }
    forall i | 0 <= i < |parts| && (forall j :: i < j < |parts| ==> PartName(parts[j]) != PartName(parts[i]))
      ensures TokenEffect(token)[PartName(parts[i])] == !IsRelease(parts[i])
    {
      ApplyPartsLastWins(map[], parts, i);
    }
  }

  /** A token without `+` acts as its single part. */
  lemma SinglePartToken(token: string)
    requires '+' !in token
    ensures TokenEffect(token) == SetPart(map[], token)
  {
    SplitWithoutSeparator(token, '+');
    assert [token][..0] == [];
  }

  /** Action letters are lower-cased: `>+Y` presses the attributes `>` and `y`, not `Y`. */
  lemma LowercasedActionLetter()
    ensures TokenEffect(">+Y") == map[">" := true, "y" := true]
  {
    assert ">+Y"[1..] == "+Y" && "+Y"[1..] == "Y" && "Y"[1..] == "";
    SplitWithoutSeparator("Y", '+');
    assert Split("+Y", '+') == ["", "Y"];
    assert [">+Y"[0]] + "" == ">";
    assert Split(">+Y", '+') == [">", "Y"];
    assert PartName(">") == ">" && PartName("Y") == "y";
    assert [">", "Y"][..1] == [">"] && [">"][..0] == [];
  }

  /**
   * One call of the sequencer on macro `com` with cursor `exeCode` and
   * button attributes `held`: an empty macro changes nothing; a cursor at
   * or past the end rewinds to 0 and leaves the buttons as they were;
   * otherwise the buttons are cleared, the token under the cursor applied,
   * and the cursor advanced.
   */
  function CommandStep(exeCode: nat, held: map<string, bool>, com: seq<string>): (next: (nat, map<string, bool>))
    ensures |com| > 0 ==> next.0 <= |com| && (next.0 == 0 <==> exeCode >= |com|)
    ensures exeCode >= |com| ==> next.1 == held
  {
    if |com| == 0 then (exeCode, held)
    else if exeCode >= |com| then (0, held)
    else (exeCode + 1, TokenEffect(com[exeCode]))
  }

  /** `k` consecutive calls of the sequencer on the same macro. */
  function Steps(exeCode: nat, held: map<string, bool>, com: seq<string>, k: nat): (nat, map<string, bool>)
  {
    if k == 0 then (exeCode, held)
    else
      var (e, h) := Steps(exeCode, held, com, k - 1);
      CommandStep(e, h, com)
  }

  /**
   * From a rewound cursor, the `k`-th call on an `n`-token macro (1 <= k <= n)
   * leaves the cursor at `k` and the buttons set by the `k`-th token.
   */
  lemma {:induction false} Playback(held: map<string, bool>, com: seq<string>, k: nat)
    requires 1 <= k <= |com|
    ensures Steps(0, held, com, k) == (k, TokenEffect(com[k - 1]))
  {
    if k > 1 {
      Playback(held, com, k - 1);
    }
  }

  /**
   * The call after the last token rewinds the cursor to 0 and leaves the
   * last token's buttons in place.
   */
  lemma Rewind(held: map<string, bool>, com: seq<string>)
    requires |com| > 0
    ensures Steps(0, held, com, |com| + 1) == (0, TokenEffect(com[|com| - 1]))
  {
    Playback(held, com, |com|);
  }
}
