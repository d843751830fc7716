/**
 * The shared helper create_button_event of selfdrive/car, with the behaviour
 * the GM interface relies on: a code other than the "unpressed" one is a press
 * of that button, the unpressed code is a release of the previous button, and a
 * button missing from the dictionary is reported as unknown.
 */
module CarHelpers {
  import opened Cereal
  import opened GmValues

  function CreateButtonEvent(cur: CruiseButton, prev: CruiseButton,
                             buttonsDict: map<CruiseButton, ButtonType>,
                             unpressed: CruiseButton): (be: ButtonEvent)
    ensures be.pressed <==> cur != unpressed
    ensures be.buttonType != ButtonType.Unknown ==>
      var but := if cur != unpressed then cur else prev;
      but in buttonsDict && buttonsDict[but] == be.buttonType
    ensures var but := if cur != unpressed then cur else prev;
      but in buttonsDict ==> be.buttonType == buttonsDict[but]
  {
    var but := if cur != unpressed then cur else prev;
    ButtonEvent(cur != unpressed, if but in buttonsDict then buttonsDict[but] else ButtonType.Unknown)
  }
}
