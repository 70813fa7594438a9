/** The delete dialog: the typed confirmation word that unlocks the
    delete button, and what a confirmation does. */
module DeleteConfirmationModal {

  /** The only text that unlocks deletion, compared exactly. */
  const ConfirmWord := "CONFIRMAR"

  /** `isOpen` from the parent, and the dialog's own `inputValue` and
      `isLoading`. */
  datatype Dialog = Dialog(isOpen: bool, inputValue: string, isLoading: bool)

  /** The effect on `isOpen`: opening clears the input. */
  function OnOpenChange(d: Dialog, isOpen: bool): (r: Dialog)
    ensures Renders(r) <==> isOpen
    ensures r.isLoading == d.isLoading
    ensures isOpen ==> r.inputValue == ""
    ensures !isOpen ==> r.inputValue == d.inputValue
  {
    if isOpen then Dialog(true, "", d.isLoading) else d.(isOpen := false)
  }

  /** Typing stores the text as typed; the upper-case styling of the box
      does not change it. */
  function Type(d: Dialog, value: string): (r: Dialog)
    ensures r.inputValue == value && r.isOpen == d.isOpen && r.isLoading == d.isLoading
  {
    d.(inputValue := value)
  }

  /** The dialog draws nothing while closed. */
  predicate Renders(d: Dialog) {
    d.isOpen
  }

  /** The delete button's `disabled`: it opens exactly when a click would
      reach `onConfirm` and no deletion is loading. */
  function ConfirmDisabled(d: Dialog): (r: bool)
    ensures !r ==> HandleConfirm(d, true).confirmed && HandleConfirm(d, false).confirmed
    ensures d.isLoading ==> r
    ensures d.inputValue == ConfirmWord && !d.isLoading ==> !r
    ensures r <==> d.isLoading || !HandleConfirm(d, true).confirmed
  {
    d.inputValue != ConfirmWord || d.isLoading
  }

  /** What one `handleConfirm` did: the dialog after it, whether it called
      `onConfirm`, whether it closed the dialog and whether it alerted. */
  datatype ConfirmResult = ConfirmResult(dialog: Dialog, confirmed: bool, closed: bool, alerted: bool)

  /** `handleConfirm`; `succeeded` is whether the `onConfirm` promise
      resolved. */
  function HandleConfirm(d: Dialog, succeeded: bool): (r: ConfirmResult)
    ensures r.confirmed <==> d.inputValue == ConfirmWord
    ensures !r.confirmed ==> r.dialog == d && !r.closed && !r.alerted
    ensures r.confirmed ==> !r.dialog.isLoading && r.dialog.inputValue == d.inputValue
    ensures r.closed <==> r.confirmed && succeeded
    ensures r.alerted <==> r.confirmed && !succeeded
  {
    if d.inputValue != ConfirmWord then ConfirmResult(d, false, false, false)
    else ConfirmResult(d.(isLoading := false), true, succeeded, !succeeded)
  }

  /** An enabled button always goes through to `onConfirm`. */
  lemma EnabledConfirms(d: Dialog, succeeded: bool)
    requires !ConfirmDisabled(d)
    ensures HandleConfirm(d, succeeded).confirmed
  {
  }

  /** The word in lower case neither enables the button nor confirms. */
  lemma LowerCaseRefused(d: Dialog, succeeded: bool)
    ensures ConfirmDisabled(Type(d, "confirmar"))
    ensures !HandleConfirm(Type(d, "confirmar"), succeeded).confirmed
  {
    assert "confirmar"[0] != ConfirmWord[0];
  }

  /** Right after opening, the button is locked until the word is typed. */
  lemma OpeningLocks(d: Dialog, succeeded: bool)
    ensures ConfirmDisabled(OnOpenChange(d, true))
    ensures !HandleConfirm(OnOpenChange(d, true), succeeded).confirmed
  {
  }

  /** The cancel button's `disabled`. */
  function CancelDisabled(d: Dialog): (r: bool)
    ensures r ==> ConfirmDisabled(d)
  {
    d.isLoading
  }

  /** While a deletion runs, both buttons stay locked; once it is over,
      cancel is free again. */
  lemma LoadingLocks(d: Dialog, succeeded: bool)
    ensures d.isLoading ==> ConfirmDisabled(d) && CancelDisabled(d)
    ensures !CancelDisabled(HandleConfirm(d, succeeded).dialog) <==> !d.isLoading || d.inputValue == ConfirmWord
  {
  }
}
