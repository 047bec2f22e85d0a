/** The delivery person's session: a token and a profile, both initially null. */
module DeliveryPersonSession {
  import opened Common

  class DeliveryPersonStore {
    var token: Option<string>
    var deliveryPerson: Option<Profile>

    constructor ()
      ensures token == None && deliveryPerson == None
    {
      token, deliveryPerson := None, None;
    }

    /** The id the delivery-person pages guard on (`deliveryPerson?._id`). */
    function DeliveryPersonId(): (r: Option<string>)
      reads this
      ensures r.Some? ==> r.value != ""
    {
      IdOf(deliveryPerson)
    }

    method SetDeliveryPersonToken(t: Option<string>)
      modifies this
      ensures token == t && deliveryPerson == old(deliveryPerson)
    {
      token := t;
    }

    method SetDeliveryPerson(d: Option<Profile>)
      modifies this
      ensures deliveryPerson == d && token == old(token)
    {
      deliveryPerson := d;
    }

    /** Clears both fields; a second logout finds them cleared already. */
    method Logout()
      modifies this
      ensures token == None && deliveryPerson == None
    {
      token, deliveryPerson := None, None;
    }
  }
}
