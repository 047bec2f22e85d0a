/** The restaurant's "update a food item" form: the fields loaded from the
    stored item, the image fallback of the multipart body it puts (no field is
    required), and the reset after a 2xx answer. */
module MenuItemUpdate {
  import opened Common
  import opened FormData
  import MenuItemCreate

  const Updated := "Menu item update successfully!"
  const UpdateFailed := "Error Updating menu item. Please try again."
  const MenuPath := "/restaurant/menu"

  const UpdateKeys := ["name", "description", "price", "restaurantId", "category", "image"]

  /** A stored menu item. */
  datatype MenuItem = MenuItem(restaurantId: string, id: string, name: string, description: string,
                               price: int, category: string, imageUrl: Option<string>)

  /** The service's answer to the load: the item, and the `image` field its
      record may carry (a stored item normally has none). */
  datatype LoadedItem = LoadedItem(item: MenuItem, image: Option<FileRef>)

  /** `image || menuItem?.imageUrl || ""`: the picked file, else the stored
      image's URL when there is a non-empty one, else the empty string. */
  function ImageValue(image: Option<FileRef>, menuItem: Option<MenuItem>): (v: FormValue)
    ensures image.Some? ==> v == Blob(image.value)
    ensures image.None? && menuItem.Some? && Truthy(menuItem.value.imageUrl) ==> v == Text(menuItem.value.imageUrl.value)
    ensures image.None? && !(menuItem.Some? && Truthy(menuItem.value.imageUrl)) ==> v == Text("")
    ensures v.Text? ==> image.None?
  {
    if image.Some? then Blob(image.value)
    else if menuItem.Some? then Text(OrElse(menuItem.value.imageUrl, ""))
    else Text("")
  }

  /** The body `handleUpdate` appends, entry by entry. */
  function UpdateBody(name: string, description: string, price: int, restaurantId: string,
                      category: string, image: FormValue): seq<Entry> {
    [Entry("name", Text(name)), Entry("description", Text(description)), Entry("price", Text(IntToString(price))),
     Entry("restaurantId", Text(restaurantId)), Entry("category", Text(category)), Entry("image", image)]
  }

  /** The six fields, each once and in the order appended, with their values. */
  lemma UpdateBodyFields(name: string, description: string, price: int, restaurantId: string,
                         category: string, image: FormValue)
    ensures var body := UpdateBody(name, description, price, restaurantId, category, image);
      && Keys(body) == UpdateKeys && DistinctKeys(body)
      && body[0].value == Text(name) && body[1].value == Text(description)
      && body[2].value == Text(IntToString(price)) && body[3].value == Text(restaurantId)
      && body[4].value == Text(category) && body[5].value == image
  {
    var body := UpdateBody(name, description, price, restaurantId, category, image);
    // The keys differ in length, except "price" and "image", which differ in their first letter.
    assert |body[0].key| == 4 && |body[1].key| == 11 && |body[2].key| == 5;
    assert |body[3].key| == 12 && |body[4].key| == 8 && |body[5].key| == 5;
    assert body[2].key[0] != body[5].key[0];
  }

  class UpdateForm {
    const menuItemId: string
    var menuItem: Option<MenuItem>
    var name: string
    var description: string
    var price: int
    var category: string
    var restaurantId: string
    var image: Option<FileRef>
    var fileKey: int
    var loading: bool

    constructor (menuItemId: string)
      ensures this.menuItemId == menuItemId && menuItem == None
      ensures name == "" && description == "" && price == 0 && category == "" && restaurantId == ""
      ensures image == None && fileKey == 0 && loading
    {
      this.menuItemId := menuItemId;
      menuItem := None;
      name, description, price, category, restaurantId := "", "", 0, "", "";
      image, fileKey, loading := None, 0, true;
    }

    /** `fetchMenuItem`: the loaded item fills the form; a failed load leaves it. */
    method LoadItem(reply: AxiosReply<LoadedItem>)
      modifies this
      ensures reply.Response? ==>
        var it := reply.data.item;
        && name == it.name && description == it.description && price == it.price
        && category == it.category && image == reply.data.image && menuItem == Some(it)
        && restaurantId == it.restaurantId
      ensures reply.Rejected? ==>
        && name == old(name) && description == old(description) && price == old(price)
        && category == old(category) && image == old(image) && menuItem == old(menuItem)
        && restaurantId == old(restaurantId)
      ensures fileKey == old(fileKey) && !loading
    {
      loading := true;
      if reply.Response? {
        var it := reply.data.item;
        name := it.name;
        description := it.description;
        price := it.price;
        category := it.category;
        image := reply.data.image;
        menuItem := Some(it);
        restaurantId := it.restaurantId;
      }
      loading := false;
    }

    /** `handleUpdate`: the body is put whatever the fields hold; a 2xx
        answer resets every field but `restaurantId`, bumps `fileKey` and
        sends the router to the menu. */
    method HandleUpdate(reply: AxiosReply<()>) returns (alert: string, body: seq<Entry>, redirect: Option<string>)
      modifies this
      ensures body == UpdateBody(old(name), old(description), old(price), old(restaurantId), old(category),
                                 ImageValue(old(image), old(menuItem)))
      ensures MenuItemCreate.Succeeded(reply) ==>
        && alert == Updated && redirect == Some(MenuPath)
        && name == "" && description == "" && price == 0 && category == "" && image == None
        && fileKey == old(fileKey) + 1
      ensures !MenuItemCreate.Succeeded(reply) ==>
        && alert == UpdateFailed && redirect == None
        && name == old(name) && description == old(description) && price == old(price)
        && category == old(category) && image == old(image) && fileKey == old(fileKey)
      ensures restaurantId == old(restaurantId) && menuItem == old(menuItem) && loading == old(loading)
    {
      var formData: seq<Entry> := [];
      formData := formData + [Entry("name", Text(name))];
      formData := formData + [Entry("description", Text(description))];
      formData := formData + [Entry("price", Text(IntToString(price)))];
      formData := formData + [Entry("restaurantId", Text(restaurantId))];
      formData := formData + [Entry("category", Text(category))];
      formData := formData + [Entry("image", ImageValue(image, menuItem))];
      body := formData;
      if !MenuItemCreate.Succeeded(reply) {
        return UpdateFailed, body, None;
      }
      alert := Updated;
      name, description, price, category, image := "", "", 0, "", None;
      fileKey := fileKey + 1;
      redirect := Some(MenuPath);
    }
  }
}
