/** GravityStrength: the current vertical acceleration, and the inspector value it reverts to. */
module GravityStrengths {

  /** The field initialiser of initialStrength, which is what the constructor copies into Value:
      the inspector's value is written into the field only after construction. */
  const DefaultStrength: real := -50.0

  class GravityStrength {
    /** The inspector value (−50 by default). */
    const initialStrength: real
    var Value: real

    /** The constructor runs on the field initialiser, so Value starts at DefaultStrength whatever
        the inspector holds; initialStrength is the inspector value deserialised afterwards. */
    constructor (initialStrength: real)
      ensures this.initialStrength == initialStrength
      ensures Value == DefaultStrength
    {
      this.initialStrength := initialStrength;
      Value := DefaultStrength;
    }

    /** Back to the inspector value; calling it again changes nothing more. */
    method RevertStrength()
      modifies this
      ensures Value == initialStrength
    {
      Value := initialStrength;
    }
  }
}
