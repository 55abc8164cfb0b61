/**
 * The application's store logic: the initial state and the reducer, which
 * reverses one of the two texts of the shared state object in place.
 */
module Redux {
  import opened JsValues

  /** `s.split('').reverse().join('')`: the characters of `s` in reverse order. */
  function Reversed(s: string): (r: string)
    ensures |r| == |s|
  {
    if |s| == 0 then "" else [s[|s| - 1]] + Reversed(s[..|s| - 1])
  }

  /** Position `i` of the reversal holds the character `i` places from the end. */
  lemma {:induction false} ReversedAt(s: string, i: nat)
    requires i < |s|
    ensures Reversed(s)[i] == s[|s| - 1 - i]
  {
    if i > 0 {
      var init := s[..|s| - 1];
      ReversedAt(init, i - 1);
      assert Reversed(s)[i] == Reversed(init)[i - 1];
    }
  }

  /** Reversing twice gives the text back. */
  lemma ReversedInvolution(s: string)
    ensures Reversed(Reversed(s)) == s
  {
    var r := Reversed(s);
    forall i | 0 <= i < |s|
      ensures Reversed(r)[i] == s[i]
    {
      ReversedAt(r, i);
      ReversedAt(s, |s| - 1 - i);
    }
  }

  /** The shared state object: `{ text, bottomText }`. */
  class State {
    var text: string
    var bottomText: string

    /** `initState` */
    constructor Init()
      ensures text == "hello world" && bottomText == "click bottom"
    {
      text := "hello world";
      bottomText := "click bottom";
    }
  }

  /** An action: its `name` field and its `type` field (undefined when absent). */
  datatype Action = Action(name: Value, actionType: Value)

  /** The branch of the reducer's `switch` an action selects. */
  datatype Case = ReverseText | ReverseButton | Unmatched

  /** `action.name || action.type` */
  function Discriminant(action: Action): (d: Value)
    ensures Truthy(action.name) ==> d == action.name
    ensures !Truthy(action.name) ==> d == action.actionType
  {
    Or(action.name, action.actionType)
  }

  /**
   * The `switch` on the discriminant, whose cases compare with `===`: a truthy
   * `name` decides alone; otherwise `type` does.
   */
  function CaseOf(action: Action): (c: Case)
    ensures c == ReverseText <==>
      action.name == Str("reverse_text") || (!Truthy(action.name) && action.actionType == Str("reverse_text"))
    ensures c == ReverseButton <==>
      action.name == Str("reverse_button") || (!Truthy(action.name) && action.actionType == Str("reverse_button"))
  {
    var d := Discriminant(action);
    if StrictEquals(d, Str("reverse_text")) then ReverseText
    else if StrictEquals(d, Str("reverse_button")) then ReverseButton
    else Unmatched
  }

  /** A truthy `name` makes `type` irrelevant. */
  lemma NameTakesPrecedence(action: Action, otherType: Value)
    requires Truthy(action.name)
    ensures CaseOf(action) == CaseOf(Action(action.name, otherType))
  {
  }

  /** A falsy `name` (absent, empty, zero, ...) leaves the choice to `type`. */
  lemma FalsyNameDefersToType(action: Action)
    requires !Truthy(action.name)
    ensures CaseOf(action) == CaseOf(Action(Undefined, action.actionType))
  {
  }

  /**
   * `reducer`: reverses `text` or `bottomText` of the given state object in
   * place, or leaves it alone, and returns that same object.
   */
  method Reducer(state: State, action: Action) returns (next: State)
    modifies state
    ensures next == state
    ensures CaseOf(action) == ReverseText ==>
      state.text == Reversed(old(state.text)) && state.bottomText == old(state.bottomText)
    ensures CaseOf(action) == ReverseButton ==>
      state.bottomText == Reversed(old(state.bottomText)) && state.text == old(state.text)
    ensures CaseOf(action) == Unmatched ==> unchanged(state)
  {
    var discriminant := Discriminant(action);
    if StrictEquals(discriminant, Str("reverse_text")) {
      state.text := Reversed(state.text);
      return state;
    } else if StrictEquals(discriminant, Str("reverse_button")) {
      state.bottomText := Reversed(state.bottomText);
      return state;
    } else {
      return state;
    }
  }

  /** Dispatching a `reverse_text` action twice restores both texts. */
  method ReverseTextTwice(state: State, action: Action)
    requires CaseOf(action) == ReverseText
    modifies state
    ensures state.text == old(state.text) && state.bottomText == old(state.bottomText)
  {
    var s := Reducer(state, action);
    assert |s.text| == |old(state.text)|;
    s := Reducer(s, action);
    ReversedInvolution(old(state.text));
  }

  lemma ReversedHelloWorld()
    ensures Reversed("hello world") == "dlrow olleh"
  {
    var s := "hello world";
    forall i | 0 <= i < |s|
      ensures Reversed(s)[i] == "dlrow olleh"[i]
    {
      ReversedAt(s, i);
    }
  }

  /** From the initial state, one `reverse_text` gives "dlrow olleh". */
  method ReverseFromInitialState()
  {
    var state := new State.Init();
    var next := Reducer(state, Action(Undefined, Str("reverse_text")));
    ReversedHelloWorld();
    assert next.text == "dlrow olleh";
    assert next.bottomText == "click bottom";
  }
}
