/**
 * The delete-confirmation dialog (internal/ui/components/confirmation): two
 * buttons, "Delete" (cursor 0) and "Cancel" (cursor 1), and the message the
 * dialog sends once a choice is made.
 */
module Confirmation {
  import opened TextInput

  /** `confirmation.Model`. */
  datatype Model = Model(cursor: int, itemToDelete: string, itemType: string)

  /** What reaches `Update`: a key, or anything else. */
  datatype Msg = KeyMsg(key: Key) | OtherMsg

  /** The message the returned command produces; `NoReply` is a nil command. */
  datatype Reply = NoReply | ItemDeleted(id: string, itemType: string) | ModalClosed

  /** The keys that move between the two buttons. */
  predicate IsToggle(k: Key) {
    k == Tab || k == ShiftTab || k == Left || k == Right
  }

  /** `New(id)`: the cursor on "Delete"; the item type is never set. */
  function New(id: string): (m: Model)
    ensures m.cursor == 0 && m.itemToDelete == id && m.itemType == ""
  {
    Model(0, id, "")
  }

  /**
   * `New` as the package's test calls it, with the item type as a second
   * argument: the item type is kept, so the deletion reply carries it.
   */
  function NewTyped(id: string, itemType: string): (m: Model)
    ensures m.cursor == 0 && m.itemToDelete == id && m.itemType == itemType
  {
    Model(0, id, itemType)
  }

  /** The button the cursor moves to: "Cancel" from "Delete", and "Delete" from anything else. */
  function Flip(cursor: int): (r: int)
    ensures r == 0 || r == 1
    ensures cursor == 0 <==> r == 1
  {
    if cursor == 0 then 1 else 0
  }

  /**
   * `Update`. The toggle keys flip the cursor. Enter on "Delete" asks for the
   * item to be deleted and enter on "Cancel" closes the dialog, leaving the
   * model as it is. Esc, "q" and everything else change nothing and send nothing.
   */
  function Step(m: Model, msg: Msg): (r: (Model, Reply))
    ensures r.0.itemToDelete == m.itemToDelete && r.0.itemType == m.itemType
    ensures msg.KeyMsg? && IsToggle(msg.key) ==> r.0.cursor == Flip(m.cursor) && r.1 == NoReply
    ensures !(msg.KeyMsg? && IsToggle(msg.key)) ==> r.0 == m
    ensures r.1.ItemDeleted? <==> msg == KeyMsg(Enter) && m.cursor == 0
    ensures r.1.ModalClosed? <==> msg == KeyMsg(Enter) && m.cursor != 0
    ensures r.1.ItemDeleted? ==> r.1 == ItemDeleted(m.itemToDelete, m.itemType)
  {
    match msg
    case OtherMsg => (m, NoReply)
    case KeyMsg(k) =>
      if IsToggle(k) then (m.(cursor := Flip(m.cursor)), NoReply)
      else if k == Enter then
        if m.cursor == 0 then (m, ItemDeleted(m.itemToDelete, m.itemType)) else (m, ModalClosed)
      else (m, NoReply)
  }

  /** `Update`, statement by statement, on the model copy. */
  method Update(m: Model, msg: Msg) returns (r: Model, reply: Reply)
    ensures (r, reply) == Step(m, msg)
  {
    r := m;
    reply := NoReply;
    if msg.KeyMsg? {
      var k := msg.key;
      if k == Tab || k == ShiftTab || k == Left || k == Right {
        if r.cursor == 0 {
          r := r.(cursor := 1);
        } else {
          r := r.(cursor := 0);
        }
      } else if k == Enter {
        if r.cursor == 0 {
          reply := ItemDeleted(r.itemToDelete, r.itemType);
          return;
        } else {
          reply := ModalClosed;
          return;
        }
      } else if k == Esc || k == Rune('q') {
        return;
      }
    }
  }

  /** The model after a sequence of messages. */
  function Run(m: Model, msgs: seq<Msg>): Model
    decreases |msgs|
  {
    if msgs == [] then m else Run(Step(m, msgs[0]).0, msgs[1..])
  }

  /** Whatever the messages, a dialog that starts on a button stays on one, and keeps its item. */
  lemma {:induction false} CursorStaysOnAButton(m: Model, msgs: seq<Msg>)
    requires m.cursor == 0 || m.cursor == 1
    ensures Run(m, msgs).cursor == 0 || Run(m, msgs).cursor == 1
    ensures Run(m, msgs).itemToDelete == m.itemToDelete && Run(m, msgs).itemType == m.itemType
    decreases |msgs|
  {
    if msgs != [] {
      CursorStaysOnAButton(Step(m, msgs[0]).0, msgs[1..]);
    }
  }

  /** Two toggles, with any toggle keys, bring the cursor back. */
  lemma ToggleTwice(m: Model, k1: Key, k2: Key)
    requires m.cursor == 0 || m.cursor == 1
    requires IsToggle(k1) && IsToggle(k2)
    ensures Step(Step(m, KeyMsg(k1)).0, KeyMsg(k2)).0 == m
  {
  }

  /** Right then left, as in the package's test: "Cancel", then "Delete" again. */
  lemma RightThenLeft(id: string)
    ensures Step(New(id), KeyMsg(Right)).0.cursor == 1
    ensures Step(Step(New(id), KeyMsg(Right)).0, KeyMsg(Left)).0.cursor == 0
  {
  }

  /** The deletion reply built by `New(id)` always names the item but never its type. */
  lemma DeletionHasNoType(id: string)
    ensures Step(New(id), KeyMsg(Enter)).1 == ItemDeleted(id, "")
  {
  }

  /** With the type kept at construction, the deletion reply carries it. */
  lemma DeletionCarriesType(id: string, itemType: string)
    ensures Step(NewTyped(id, itemType), KeyMsg(Enter)).1 == ItemDeleted(id, itemType)
  {
  }
}
