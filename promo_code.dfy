/**
 * The promo codes: bonus codes added through a form that needs a code and an amount
 * (the code is stored in capitals, the amount as a number), and deleted after the
 * browser's confirmation.
 */
module PromoCode {
  import opened Wrappers
  import opened Text
  import opened Numbers
  import opened Collections
  import opened Effects

  datatype Promo = Promo(id: string, code: string, amount: Option<real>)

  /** The body posted for a new code; an amount that does not parse is NaN (None). */
  datatype Payload = Payload(code: string, amount: Option<real>)

  /** The message toast; `kind` is "", "error" or "success". */
  datatype Message = Message(kind: string, text: string)

  const NoMessage := Message("", "")

  /** How the list fetch ends: a JSON array, some other JSON value, or an exception. */
  datatype Fetched = JsonArray(items: seq<Promo>) | NotArray | Failed

  /** `{ code: code.toUpperCase(), amount: parseFloat(amount) }`. */
  function PayloadOf(code: string, amount: string): (p: Payload)
    ensures |p.code| == |code| && p.amount == ParseFloat(amount)
    ensures forall i :: 0 <= i < |code| ==> p.code[i] == UpperChar(code[i])
  {
    Payload(Upper(code), ParseFloat(amount))
  }

  /** The posted code has no lower-case letter, whatever was typed. */
  lemma PayloadCodeUpper(code: string, amount: string, i: int)
    requires 0 <= i < |code|
    ensures !('a' <= PayloadOf(code, amount).code[i] <= 'z')
  {
    UpperHasNoLowerLetter(code, i);
  }

  /** A typed whole number is posted as that number. */
  lemma PayloadAmountOfNumber(code: string, n: int)
    ensures PayloadOf(code, IntToString(n)).amount == Some(n as real)
  {
    IntToStringParses(n);
  }

  /** The toast after the add request was sent. */
  function AddMessage(reply: Reply): (m: Message)
    ensures m.kind == "success" <==> reply == Answered(true)
    ensures m.kind != "success" ==> m.kind == "error"
  {
    if reply == Answered(true) then Message("success", "Promo Code Added!")
    else if reply.Answered? then Message("error", "Failed to add promo code")
    else Message("error", "Network error")
  }

  function Other(id: string): Promo -> bool {
    (p: Promo) => p.id != id
  }

  class PromoPage {
    var promoCodes: seq<Promo>
    var loading: bool
    var showModal: bool
    var code: string
    var amount: string
    var actionLoading: bool
    var message: Message

    constructor()
      ensures promoCodes == [] && loading && !showModal && code == "" && amount == ""
      ensures !actionLoading && message == NoMessage
    {
      promoCodes := [];
      loading := true;
      showModal := false;
      code := "";
      amount := "";
      actionLoading := false;
      message := NoMessage;
    }

    /** `fetchPromoCodes`: only an array replaces the list; the spinner stops either way. */
    method Load(fetched: Fetched)
      modifies this`promoCodes, this`loading
      ensures promoCodes == (if fetched.JsonArray? then fetched.items else old(promoCodes))
      ensures !loading
    {
      if fetched.JsonArray? {
        promoCodes := fetched.items;
      }
      loading := false;
    }

    /** Typing in the code input: the field holds the text already in capitals. */
    method EditCode(typed: string)
      modifies this`code
      ensures code == Upper(typed)
    {
      code := Upper(typed);
    }

    /** Typing in the amount input. */
    method EditAmount(typed: string)
      modifies this`amount
      ensures amount == typed
    {
      amount := typed;
    }

    /**
     * `handleAddPromo`: without a code or an amount an error shows and nothing is sent;
     * otherwise the normalised payload is posted, and an ok answer clears the inputs,
     * closes the dialog and asks for the list again (`reload`).
     */
    method AddPromo(reply: Reply) returns (posted: Option<Payload>, reload: bool)
      modifies this`message, this`actionLoading, this`showModal, this`code, this`amount
      ensures old(code) == "" || old(amount) == "" ==>
        posted.None? && !reload && message == Message("error", "Please fill all fields")
        && actionLoading == old(actionLoading) && showModal == old(showModal)
        && code == old(code) && amount == old(amount)
      ensures old(code) != "" && old(amount) != "" ==>
        posted == Some(PayloadOf(old(code), old(amount))) && message == AddMessage(reply) && !actionLoading
        && reload == (reply == Answered(true))
        && showModal == (if reply == Answered(true) then false else old(showModal))
        && code == (if reply == Answered(true) then "" else old(code))
        && amount == (if reply == Answered(true) then "" else old(amount))
    {
      if code == "" || amount == "" {
        message := Message("error", "Please fill all fields");
        return None, false;
      }
      actionLoading := true;
      posted := Some(Payload(Upper(code), ParseFloat(amount)));
      message := AddMessage(reply);
      reload := reply == Answered(true);
      if reply == Answered(true) {
        showModal := false;
        code := "";
        amount := "";
      }
      actionLoading := false;
    }

    /**
     * `handleDelete(id)`: declining the confirmation sends nothing. Otherwise an ok
     * answer removes the codes with that id; any other answer keeps the list and
     * raises an alert.
     */
    method Delete(id: string, confirmed: bool, reply: Reply) returns (requested: bool, alert: Option<string>)
      modifies this`promoCodes
      ensures requested == confirmed
      ensures !confirmed || reply != Answered(true) ==> promoCodes == old(promoCodes)
      ensures confirmed && reply == Answered(true) ==> promoCodes == Filter(old(promoCodes), Other(id))
      ensures alert.Some? <==> confirmed && reply != Answered(true)
      ensures alert.Some? ==> alert.value == (if reply.Raised? then "Network error" else "Failed to delete")
    {
      alert := None;
      if !confirmed {
        return false, None;
      }
      requested := true;
      if reply == Answered(true) {
        promoCodes := Filter(promoCodes, Other(id));
      } else if reply.Answered? {
        alert := Some("Failed to delete");
      } else {
        alert := Some("Network error");
      }
    }
  }

  /** A code typed into the input is posted as typed there: uppercasing it again changes nothing. */
  lemma TypedCodePosted(typed: string, amount: string)
    ensures PayloadOf(Upper(typed), amount).code == Upper(typed)
  {
    UpperIdempotent(typed);
  }

  /** A delete removes the codes with that id and no other, keeping their order. */
  lemma DeleteOnlyThatId(codes: seq<Promo>, id: string)
    ensures forall p :: p in Filter(codes, Other(id)) <==> p in codes && p.id != id
  {
  }
}
