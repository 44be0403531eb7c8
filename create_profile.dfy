/**
 * Profile onboarding (src/components/CreateProfile.jsx): the form that a signed-in user
 * without a `users/{uid}` document fills in. Submitting validates the PIN pair, then writes
 * the role document `users/{uid}` and the patient document `patients/{uid}` one after the
 * other, and finally calls the completion callback handed down by the session resolver.
 */
module CreateProfile {
  import opened Firestore
  import opened JsStrings

  const PinTooShortMessage := "PIN must be at least 4 digits."
  const PinMismatchMessage := "PINs do not match."

  /** The minimum PIN length the submit handler checks. */
  const PinMinLength := 4

  /** The `maxLength` of both PIN inputs. */
  const PinMaxLength := 4

  function UsersPath(uid: string): Path { ["users", uid] }

  function PatientsPath(uid: string): Path { ["patients", uid] }

  /**
   * The validation step of the submit handler: the message it shows, or `None` when the
   * input passes. The length check comes first; only a long enough PIN is compared.
   */
  function ValidatePin(pin: string, confirmPin: string): (r: Option<string>)
    ensures r.None? <==> |pin| >= PinMinLength && pin == confirmPin
    ensures r.Some? ==> r.value in {PinTooShortMessage, PinMismatchMessage}
  {
    if |pin| < PinMinLength then Some(PinTooShortMessage)
    else if pin != confirmPin then Some(PinMismatchMessage)
    else None
  }

  /** A PIN shorter than the minimum is reported as too short, whatever the confirmation. */
  lemma LengthCheckFirst(pin: string, confirmPin: string)
    requires |pin| < PinMinLength
    ensures ValidatePin(pin, confirmPin) == Some(PinTooShortMessage)
  {
  }

  /** A long enough PIN that differs from its confirmation is reported as a mismatch. */
  lemma MismatchAfterLength(pin: string, confirmPin: string)
    requires |pin| >= PinMinLength && pin != confirmPin
    ensures ValidatePin(pin, confirmPin) == Some(PinMismatchMessage)
  {
  }

  /** Validation looks at length and equality only: a PIN of letters passes. */
  lemma NonDigitPinAccepted()
    ensures ValidatePin("abcd", "abcd") == None
  {
  }

  /** With the inputs capped at `PinMaxLength`, the only PINs that pass have exactly four characters. */
  lemma CappedPinPassesOnlyAtFour(pin: string, confirmPin: string)
    requires |pin| <= PinMaxLength
    ensures ValidatePin(pin, confirmPin).None? ==> |pin| == 4 && |confirmPin| == 4
  {
  }

  /**
   * What an input with `maxLength` holds after an edit that would produce `value`: at most
   * `maxLength` characters, and `value` itself when it fits. Text entered at the end of the
   * field (typing or pasting there) is cut to its first `maxLength` characters.
   */
  function CapLength(value: string, maxLength: nat): (r: string)
    ensures |r| <= maxLength
    ensures r <= value
    ensures |value| <= maxLength ==> r == value
  {
    if |value| <= maxLength then value else value[..maxLength]
  }

  /**
   * `MB-` followed by the upper-cased characters 2..8 of `base36`, the text of
   * `Math.random().toString(36)`.
   */
  function MedboxId(base36: string): (id: string)
    ensures 3 <= |id| <= 9
    ensures id[..3] == "MB-"
    ensures forall i :: 3 <= i < |id| ==> !IsLowerAscii(id[i])
  {
    "MB-" + ToUpperAscii(Substr(base36, 2, 6))
  }

  predicate IsBase36Digit(c: char) { '0' <= c <= '9' || 'a' <= c <= 'z' }

  predicate IsIdChar(c: char) { '0' <= c <= '9' || 'A' <= c <= 'Z' }

  /**
   * When the random text has at least six fraction digits, the id is `MB-` and six
   * characters from 0-9 and A-Z.
   */
  lemma MedboxIdShape(base36: string)
    requires |base36| >= 8 && base36[..2] == "0."
    requires forall i :: 2 <= i < |base36| ==> IsBase36Digit(base36[i])
    ensures |MedboxId(base36)| == 9
    ensures forall i :: 3 <= i < 9 ==> IsIdChar(MedboxId(base36)[i])
  {
    var id := MedboxId(base36);
    forall i | 3 <= i < 9 ensures IsIdChar(id[i]) {
      assert id[i] == UpperChar(base36[2 + (i - 3)]);
    }
  }

  /** The placeholder `hashed_${pin}_${Math.random()}`; `random` is the text of the number. */
  function PinHash(pin: string, random: string): (h: string)
    ensures |h| == 8 + |pin| + |random|
    ensures h[..7] == "hashed_" && h[7 + |pin|] == '_' && h[8 + |pin|..] == random
  {
    "hashed_" + pin + "_" + random
  }

  /** The placeholder hash carries the PIN in clear, right after its `hashed_` prefix. */
  lemma PinHashRevealsPin(pin: string, random: string)
    ensures |PinHash(pin, random)| == 8 + |pin| + |random|
    ensures PinHash(pin, random)[7..7 + |pin|] == pin
  {
    var h := PinHash(pin, random);
    assert h == ("hashed_" + pin) + ("_" + random);
    assert ("hashed_" + pin)[7..] == pin;
  }

  /** The role document written to `users/{uid}`. */
  function UserDoc(name: string, medboxId: string): (d: Doc)
    ensures d.Keys == {"role", "name", "medboxId"}
    ensures d["role"] == Str("patient") && d["name"] == Str(name) && d["medboxId"] == Str(medboxId)
  {
    map["role" := Str("patient"), "name" := Str(name), "medboxId" := Str(medboxId)]
  }

  /** The document written to `patients/{uid}`. */
  function PatientDoc(name: string, medboxId: string, pinHash: string): (d: Doc)
    ensures d.Keys == {"profile"} && d["profile"].Obj?
    ensures d["profile"].fields.Keys == {"name", "medboxId", "pinHash", "insurerId"}
  {
    map["profile" := Obj(map["name" := Str(name), "medboxId" := Str(medboxId),
                             "pinHash" := Str(pinHash), "insurerId" := Null])]
  }

  /**
   * The two documents of one submission agree on name and medboxId; the role is
   * `patient` and the insurer is unset.
   */
  lemma OnboardingDocsAgree(name: string, medboxId: string, pinHash: string)
    ensures UserDoc(name, medboxId)["role"] == Str("patient")
    ensures PatientDoc(name, medboxId, pinHash)["profile"].Obj?
    ensures var profile := PatientDoc(name, medboxId, pinHash)["profile"].fields;
      && profile.Keys == {"name", "medboxId", "pinHash", "insurerId"}
      && profile["name"] == UserDoc(name, medboxId)["name"] == Str(name)
      && profile["medboxId"] == UserDoc(name, medboxId)["medboxId"] == Str(medboxId)
      && profile["pinHash"] == Str(pinHash)
      && profile["insurerId"] == Null
  {
  }

  /** The form: three inputs and the error line, for the signed-in `user`. */
  class CreateProfile {
    const user: User
    var name: string
    var pin: string
    var confirmPin: string
    var error: string

    /** Both PIN inputs hold at most `PinMaxLength` characters. */
    predicate Valid()
      reads this
    {
      |pin| <= PinMaxLength && |confirmPin| <= PinMaxLength
    }

    constructor (user: User)
      ensures Valid()
      ensures this.user == user
      ensures name == "" && pin == "" && confirmPin == "" && error == ""
    {
      this.user := user;
      name, pin, confirmPin, error := "", "", "", "";
    }

    method ChangeName(value: string)
      modifies this`name
      ensures name == value
    {
      name := value;
    }

    method ChangePin(value: string)
      requires Valid()
      modifies this`pin
      ensures Valid()
      ensures pin == CapLength(value, PinMaxLength)
    {
      pin := CapLength(value, PinMaxLength);
    }

    method ChangeConfirmPin(value: string)
      requires Valid()
      modifies this`confirmPin
      ensures Valid()
      ensures confirmPin == CapLength(value, PinMaxLength)
    {
      confirmPin := CapLength(value, PinMaxLength);
    }

    /**
     * `handleSubmit`. `hasCallback` says whether `onProfileCreated` was given; `pinRandom` and
     * `base36` are the texts of the two `Math.random()` draws; `usersFault` and `patientsFault`
     * make the first or the second write fail with that message. Returns whether the
     * completion callback was called.
     */
    method HandleSubmit(db: Db, hasCallback: bool, pinRandom: string, base36: string,
                        usersFault: Option<string>, patientsFault: Option<string>)
      returns (calledBack: bool)
      modifies this`error, db
      ensures Valid() && ValidatePin(pin, confirmPin).None? ==> |pin| == |confirmPin| == PinMaxLength
      ensures ValidatePin(pin, confirmPin).Some? ==>
        && error == ValidatePin(pin, confirmPin).value
        && db.log == old(db.log) && db.docs == old(db.docs)
        && !calledBack
      ensures ValidatePin(pin, confirmPin).None? ==>
        var medboxId := MedboxId(base36);
        var userDoc := UserDoc(name, medboxId);
        var patientDoc := PatientDoc(name, medboxId, PinHash(pin, pinRandom));
        if usersFault.Some? then
          && error == usersFault.value && !calledBack
          && db.log == old(db.log) + [Write(UsersPath(user.uid), userDoc)]
          && db.docs == old(db.docs)
        else if patientsFault.Some? then
          && error == patientsFault.value && !calledBack
          && db.log == old(db.log) + [Write(UsersPath(user.uid), userDoc), Write(PatientsPath(user.uid), patientDoc)]
          && db.docs == Put(old(db.docs), UsersPath(user.uid), userDoc)
        else
          && error == "" && calledBack == hasCallback
          && db.log == old(db.log) + [Write(UsersPath(user.uid), userDoc), Write(PatientsPath(user.uid), patientDoc)]
          && db.docs == Put(Put(old(db.docs), UsersPath(user.uid), userDoc), PatientsPath(user.uid), patientDoc)
    {
      calledBack := false;
      error := "";
      if |pin| < PinMinLength {
        error := PinTooShortMessage;
        return;
      }
      if pin != confirmPin {
        error := PinMismatchMessage;
        return;
      }
      var pinHash := PinHash(pin, pinRandom);
      var medboxId := MedboxId(base36);
      var err := db.SetDoc(UsersPath(user.uid), UserDoc(name, medboxId), usersFault);
      if err.Some? {
        error := err.value;
        return;
      }
      err := db.SetDoc(PatientsPath(user.uid), PatientDoc(name, medboxId, pinHash), patientsFault);
      if err.Some? {
        error := err.value;
        return;
      }
      if hasCallback {
        calledBack := true;
      }
    }
  }
}
