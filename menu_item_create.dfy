/** The restaurant's "add a food item" form: the required-field check, the
    multipart body it posts, and the reset after a 2xx answer. */
module MenuItemCreate {
  import opened Common
  import opened FormData

  const FillAllFields := "Please fill in all fields."
  const Created := "Menu item created successfully!"
  const CreateFailed := "Error creating menu item. Please try again."
  const MenuPath := "/restaurant/menu"

  /** The keys of the body, in the order they are appended. */
  const CreateKeys := ["name", "description", "price", "category", "restaurantId", "image"]

  /** `!name || !description || !price || !category || !image`: a price of 0
      counts as missing. */
  predicate Missing(name: string, description: string, price: int, category: string, image: Option<FileRef>) {
    name == "" || description == "" || price == 0 || category == "" || image.None?
  }

  /** A 2xx answer; anything else is thrown as a failure. */
  predicate Succeeded<T>(reply: AxiosReply<T>) {
    reply.Response? && 200 <= reply.status < 300
  }

  /** The body `handleSubmit` appends, entry by entry. */
  function CreateBody(name: string, description: string, price: int, category: string,
                      restaurantId: string, image: FileRef): seq<Entry> {
    [Entry("name", Text(name)), Entry("description", Text(description)), Entry("price", Text(IntToString(price))),
     Entry("category", Text(category)), Entry("restaurantId", Text(restaurantId)), Entry("image", Blob(image))]
  }

  /** The body has exactly the six fields, in the order appended and each
      once, so `get` reads each of them back; each holds its form value. */
  lemma CreateBodyFields(name: string, description: string, price: int, category: string,
                         restaurantId: string, image: FileRef)
    ensures var body := CreateBody(name, description, price, category, restaurantId, image);
      && Keys(body) == CreateKeys && DistinctKeys(body)
      && body[0].value == Text(name) && body[1].value == Text(description)
      && body[2].value == Text(IntToString(price)) && body[3].value == Text(category)
      && body[4].value == Text(restaurantId) && body[5].value == Blob(image)
  {
    var body := CreateBody(name, description, price, category, restaurantId, image);
    // The keys differ in length, except "price" and "image", which differ in their first letter.
    assert |body[0].key| == 4 && |body[1].key| == 11 && |body[2].key| == 5;
    assert |body[3].key| == 8 && |body[4].key| == 12 && |body[5].key| == 5;
    assert body[2].key[0] != body[5].key[0];
  }

  /** The price field reads back as the number typed. */
  lemma CreateBodyPrice(name: string, description: string, price: int, category: string,
                        restaurantId: string, image: FileRef)
    ensures var body := CreateBody(name, description, price, category, restaurantId, image);
      body[2].value.Text? && IsIntLiteral(body[2].value.text) && ParseInt(body[2].value.text) == price
  {
    IntToStringRoundTrip(price);
  }

  class CreateForm {
    /** The `id` prop: the restaurant the item is created for. */
    const id: string
    var name: string
    var description: string
    var price: int
    var category: string
    var image: Option<FileRef>
    var fileKey: int

    constructor (id: string)
      ensures this.id == id
      ensures name == "" && description == "" && price == 0 && category == "" && image == None && fileKey == 0
    {
      this.id := id;
      name, description, price, category, image, fileKey := "", "", 0, "", None, 0;
    }

    /** `handleSubmit`: returns the alert shown, the body posted (none when a
        field is missing) and the page the router is sent to. */
    method HandleSubmit(reply: AxiosReply<()>) returns (alert: string, body: Option<seq<Entry>>, redirect: Option<string>)
      modifies this
      ensures body.None? <==> Missing(old(name), old(description), old(price), old(category), old(image))
      ensures body.None? ==> alert == FillAllFields
      ensures body.Some? ==> body.value == CreateBody(old(name), old(description), old(price), old(category), id, old(image).value)
      ensures body.Some? && Succeeded(reply) ==>
        && alert == Created && redirect == Some(MenuPath)
        && name == "" && description == "" && price == 0 && category == "" && image == None
        && fileKey == old(fileKey) + 1
      ensures !(body.Some? && Succeeded(reply)) ==>
        && (body.Some? ==> alert == CreateFailed) && redirect == None
        && name == old(name) && description == old(description) && price == old(price)
        && category == old(category) && image == old(image) && fileKey == old(fileKey)
    {
      if Missing(name, description, price, category, image) {
        return FillAllFields, None, None;
      }
      var formData: seq<Entry> := [];
      formData := formData + [Entry("name", Text(name))];
      formData := formData + [Entry("description", Text(description))];
      formData := formData + [Entry("price", Text(IntToString(price)))];
      formData := formData + [Entry("category", Text(category))];
      formData := formData + [Entry("restaurantId", Text(id))];
      formData := formData + [Entry("image", Blob(image.value))];
      body := Some(formData);
      if !Succeeded(reply) {
        return CreateFailed, body, None;
      }
      alert := Created;
      name, description, price, category, image := "", "", 0, "", None;
      fileKey := fileKey + 1;
      redirect := Some(MenuPath);
    }
  }
}
