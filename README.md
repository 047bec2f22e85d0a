# BYTEats client core in Dafny

BYTEats is a food-ordering web client built with Next.js. Customers browse
restaurants, fill a cart, check out, follow their orders and review
restaurants. Restaurants register and manage their menus. Delivery people
accept orders and mark them delivered or cancelled. The real work happens on
remote services. What the client itself decides is small, and the model
covers it:

- **Session stores.** The three session stores (customer, restaurant,
  delivery person) are classes with a token and a profile.
- **Cart.** The cart store guards every call on the logged-in user, sends
  the request, then replaces its items with the server's cart.
- **Cart page.** The page computes the subtotal and the heading, and its
  handlers guard on quantity, address and confirmation before calling the
  store and showing a toast.
- **Order tracking.** The page projects an order's status onto three
  milestones, and patches its lists when the real-time channel reports a
  status change.
- **Delivery-person pages.** They patch or filter their order lists after
  the order service answers.
- **Reviews.** The review page, its list and its form: validation, the edit
  and delete reconciliation, and the star widgets.
- **Forms.** The menu-item create and update forms (their multipart bodies,
  2xx checks and resets), the two registration forms and the login form.
- **Images and cards.** The Cloudinary image URL templates, and the
  restaurant card's key and link.

Each source module has its own Dafny module, and the same Dafny module
holds the page's local state. A page's local state, or a store, is a
`class` whose methods have `modifies` clauses. Each method is specified
against a function of the old state and the inputs, or states the new
fields outright. The properties of those functions are proved as lemmas.
Four modules are shared:

- `Common`: optional values; the JavaScript string semantics the pages rely
  on (`trim`, UTF-16 `length`, `slice(-k)` for ids in the Basic Multilingual
  Plane, `a || b`, decimal rendering);
  the axios reply.
- `Keyed`: `map`/`filter` by id on a list.
- `Orders`: the order record and its list patches.
- `FormData`: the multipart body and its `get`.

A remote call is never executed. Its answer is an input of the operation
that makes it:

- an axios `Response(status, data)` or `Rejected(message)`;
- a `fetch` reply that is ok, not ok with an optional message, or a network
  error;
- for the cart service, `Answered` or `Failed`.

An operation returns the requests it would send, or records them. Other
inputs are parameters too: `confirm()` answers, the upload widget's event,
and the Cloudinary cloud name (which may be unset). Navigation
(`router.push`) is modelled as a returned path; the link around the cart's
checkout button is not (see "## Left out").

## Model

| member | source | states |
|---|---|---|
| Common.IdOf | src/store/cartStore.ts:30-31 | `user?._id` as the guards read it: present exactly when the profile exists and its id is non-empty, and then it is that id |
| Common.OrElse | src/app/deliveryPerson/my-orders/page.tsx:127 | `message \|\| fallback`: the message when present and non-empty, otherwise the fallback; never empty when the fallback is not |
| Common.Trim | src/app/user/review/components/ReviewForm.tsx:32 | `trim()` gives a contiguous piece of the input that neither starts nor ends with white space (ECMAScript's set), and it is empty exactly when the input is all white space |
| Common.JsLength | src/app/user/review/components/ReviewForm.tsx:35 | `length` counts UTF-16 code units: between the character count and twice it, and equal to it when every character is in the Basic Multilingual Plane |
| Common.Suffix | src/app/user/track-orders/page.tsx:197 | the last k characters, or the whole string when it is shorter; for a string in the Basic Multilingual Plane the characters are UTF-16 code units, so this is `slice(-k)` |
| Common.IntToStringRoundTrip | src/app/components/menuItemCreateForm/page.tsx:45 | `price.toString()` is an integer literal that parses back to the price |
| Keyed.UpdateWhere | src/app/user/track-orders/page.tsx:75-81 | the id-matching `map` keeps the length; a record with the id is patched and every other record stays as it was |
| Keyed.UpdateWhereIdempotent | src/app/user/track-orders/page.tsx:75-81 | patching twice with a key-preserving, idempotent patch gives the same list as patching once |
| Keyed.RemoveWhere | src/app/deliveryPerson/page.tsx:112 | the id filter keeps exactly the records without the id, and only records of the list |
| Keyed.RemoveWhereConcat | src/app/deliveryPerson/page.tsx:112 | filtering distributes over concatenation, so kept records keep their relative order |
| Keyed.RemoveWhereAbsent | src/app/deliveryPerson/page.tsx:112 | filtering an id no record has leaves the list unchanged |
| Keyed.RemoveWhereLength | src/app/deliveryPerson/page.tsx:112 | the filter shortens the list by exactly the number of records with the id |
| Orders.FailureMessage | src/app/deliveryPerson/my-orders/page.tsx:125-131 | a not-ok reply shows the server's message or the fallback; an exception shows "Error connecting to server" |
| Orders.ApplyPatch | src/app/user/track-orders/page.tsx:78 | the spread patch sets `status` (and `updatedAt` when the patch carries one) and keeps every other field |
| Orders.PatchOrders | src/app/user/track-orders/page.tsx:75-81 | only orders whose id matches change, and only in status/updatedAt; the length is kept |
| Orders.PatchOrdersIdempotent | src/app/user/track-orders/page.tsx:75-81 | the same patch applied twice equals applying it once |
| Orders.RemoveOrder | src/app/deliveryPerson/page.tsx:112 | no order with the id remains, every other order remains, and nothing is added |
| Orders.RemoveOrderKeepsOrder | src/app/deliveryPerson/page.tsx:112 | removing from a concatenation is concatenating the removals: the relative order is kept |
| Orders.RemoveOrderAbsent | src/app/deliveryPerson/page.tsx:112 | removing an id not in the list changes nothing |
| Orders.RemoveOrderLength | src/app/deliveryPerson/page.tsx:112 | exactly the orders carrying the id are dropped |
| UserSession.UserStore.constructor | src/store/userStore.ts:22-23 | token and user start null |
| UserSession.UserStore.UserId | src/store/userStore.ts:23 | the user id the pages guard on is non-empty when present |
| UserSession.UserStore.SetToken | src/store/userStore.ts:24 | sets only the token |
| UserSession.UserStore.SetUser | src/store/userStore.ts:25 | sets only the user |
| UserSession.UserStore.Logout | src/store/userStore.ts:26 | clears both fields, so a second logout changes nothing |
| RestaurantSession.RestaurantStore.constructor | src/store/restaurantStore.ts:27-28 | token and restaurant start null |
| RestaurantSession.RestaurantStore.RestaurantId | src/store/restaurantStore.ts:28 | the restaurant id the home page guards on is non-empty when present |
| RestaurantSession.RestaurantStore.SetRestaurantToken | src/store/restaurantStore.ts:29 | sets only the token |
| RestaurantSession.RestaurantStore.SetRestaurant | src/store/restaurantStore.ts:30 | sets only the restaurant |
| RestaurantSession.RestaurantStore.Logout | src/store/restaurantStore.ts:31 | clears both fields; idempotent |
| DeliveryPersonSession.DeliveryPersonStore.constructor | src/store/deliveryPersonStore.ts:31-32 | token and deliveryPerson start null |
| DeliveryPersonSession.DeliveryPersonStore.DeliveryPersonId | src/store/deliveryPersonStore.ts:32 | the id `acceptOrder` guards on is non-empty when present |
| DeliveryPersonSession.DeliveryPersonStore.SetDeliveryPersonToken | src/store/deliveryPersonStore.ts:33 | sets only the token |
| DeliveryPersonSession.DeliveryPersonStore.SetDeliveryPerson | src/store/deliveryPersonStore.ts:34 | sets only the profile |
| DeliveryPersonSession.DeliveryPersonStore.Logout | src/store/deliveryPersonStore.ts:35 | clears both fields; idempotent |
| TrackOrders.Ordinal | src/app/user/track-orders/page.tsx:148-156 | the rank the step comparison uses: -1 exactly for "cancelled", 0 exactly for a status outside the four known ones. For an own-property miss `statusMap[s] \|\| 0` is 0; for an inherited key such as "toString" it is a function, which compares false with every milestone rank, so every milestone is pending, as with 0 |
| TrackOrders.Timeline | src/app/user/track-orders/page.tsx:145-162 | three milestones; with no selection or an unknown status all pending; "cancelled" makes all cancelled (and is the only way to get one); at most one is current; states never rise along paid, delivering, delivered |
| TrackOrders.TimelineTable | src/app/user/track-orders/page.tsx:148-161 | paid gives current, pending, pending; delivering gives completed, current, pending; delivered gives completed, completed, current |
| TrackOrders.StatusColor | src/app/user/track-orders/page.tsx:130-143 | total; the gray class exactly for statuses outside the known four |
| TrackOrders.StatusColorsDistinct | src/app/user/track-orders/page.tsx:131-139 | each known status has a class of its own |
| TrackOrders.CardPreview | src/app/user/track-orders/page.tsx:209 | a card lists the first items of the order, at most two |
| TrackOrders.MoreItems | src/app/user/track-orders/page.tsx:215-219 | "+k more items" appears exactly when there are more than two items, with k the items not listed; otherwise the card lists them all |
| TrackOrders.CardTitle | src/app/user/track-orders/page.tsx:197 | "Order #" followed by the id's last six characters (all of a shorter id), which are its last six UTF-16 units for an id in the Basic Multilingual Plane |
| TrackOrders.PatchSelected | src/app/user/track-orders/page.tsx:84-88 | the open order is patched only when its id is the event's; a non-matching or absent selection is unchanged |
| TrackOrders.SelectedStaysInList | src/app/user/track-orders/page.tsx:75-88 | an open order that is in the list is, once patched, in the patched list |
| TrackOrders.StatusUpdateIdempotent | src/app/user/track-orders/page.tsx:75-88 | a duplicated event leaves list and selection as one event does |
| TrackOrders.TrackOrdersView.OnStatusUpdate | src/app/user/track-orders/page.tsx:71-89 | the handler replaces the list and the selection with their patched forms and leaves the tracker's visibility |
| TrackOrders.TrackOrdersView.OpenOrderTracker | src/app/user/track-orders/page.tsx:164-167 | selects the order and shows the tracker |
| TrackOrders.TrackOrdersView.CloseOrderTracker | src/app/user/track-orders/page.tsx:169-171 | hides the tracker and keeps the selection |
| TrackOrders.TrackOrdersView.CurrentTimeline | src/app/user/track-orders/page.tsx:260-330 | the step states of the current selection: three milestones, at most one current, never rising (a cancelled order's tracker shows a notice instead of drawing them) |
| MyOrders.AfterTransition | src/app/deliveryPerson/my-orders/page.tsx:107-162 | after an ok answer exactly the orders with the id take "delivered" (or "cancelled") and all else is unchanged; otherwise the list is unchanged and the error is the server message or the fallback |
| MyOrders.AfterTransitionIdempotent | src/app/deliveryPerson/my-orders/page.tsx:119-123 | both patches are idempotent |
| MyOrders.Actions | src/app/deliveryPerson/my-orders/page.tsx:224-249 | deliver and cancel buttons exactly for "delivering"; "Order Completed" exactly for "delivered"; "Order Cancelled" exactly for "cancelled" |
| MyOrders.Badge | src/app/deliveryPerson/my-orders/page.tsx:193-199 | green exactly for delivered, red exactly for cancelled, blue otherwise |
| MyOrders.MyOrdersView.Transit | src/app/deliveryPerson/my-orders/page.tsx:107-162 | sends the PUT to the transition's path with the store's id, and leaves the page as `AfterTransition` says |
| AvailableOrders.AfterAccept | src/app/deliveryPerson/page.tsx:95-122 | without a logged-in delivery person only the error changes; after an ok answer no order with the id remains and all others do; after a failure the list is unchanged and the error is the server message or "Failed to accept order" |
| AvailableOrders.AcceptAbsentOrder | src/app/deliveryPerson/page.tsx:112 | accepting an id not in the list leaves the list unchanged |
| AvailableOrders.AcceptKeepsOrder | src/app/deliveryPerson/page.tsx:112 | the orders around the accepted one keep their relative order |
| AvailableOrders.AvailableOrdersView.AcceptOrder | src/app/deliveryPerson/page.tsx:95-122 | no request exactly when no delivery person is logged in; otherwise the POST to the order's accept path with that id; the new page is `AfterAccept` |
| Cart.RequestFor | src/store/cartStore.ts:39-84 | every request carries the user id; add sends the item's id, quantity, name, price and image URL; update sends the item id and quantity given, remove the item id, clear only the user id; checkout forwards the address; quantity and address are forwarded unchecked |
| Cart.Fetched | src/store/cartStore.ts:29-34 | without a user id nothing is sent; otherwise GET the cart, whose answer replaces the items wholesale; a failure keeps them and throws |
| Cart.Mutated | src/store/cartStore.ts:36-86 | without a user id nothing is sent; otherwise the mutation's request, then (unless it threw) the refetch |
| Cart.CompletedMutationIsServerCart | src/store/cartStore.ts:47 | a completed mutation leaves exactly the server's cart, whatever was cached and whatever was asked |
| Cart.CartStore.constructor | src/store/cartStore.ts:27 | items start empty |
| Cart.CartStore.FetchCart | src/store/cartStore.ts:29-34 | the new state and outcome are `Fetched` of the old state |
| Cart.CartStore.Run | src/store/cartStore.ts:36-86 | guard, send, refetch: the new state and outcome are `Mutated` of the old state |
| Cart.CartStore.AddToCart | src/store/cartStore.ts:36-48 | `Mutated` with the add request |
| Cart.CartStore.UpdateItem | src/store/cartStore.ts:50-59 | `Mutated` with the update request |
| Cart.CartStore.RemoveItem | src/store/cartStore.ts:61-68 | `Mutated` with the remove request |
| Cart.CartStore.ClearCart | src/store/cartStore.ts:70-77 | `Mutated` with the clear request |
| Cart.CartStore.Checkout | src/store/cartStore.ts:79-86 | `Mutated` with the checkout request |
| CartPage.ReduceIsSum | src/app/user/cart/page.tsx:19-22 | the `reduce` from any start equals the start plus the sum of price × quantity |
| CartPage.SumConcat | src/app/user/cart/page.tsx:19-22 | the sum of line totals splits over concatenation |
| CartPage.SubtotalConcat | src/app/user/cart/page.tsx:19-22 | an empty cart's subtotal is 0 and the subtotal splits over concatenation |
| CartPage.SubtotalBounds | src/app/user/cart/page.tsx:19-22 | with non-negative prices and quantities the subtotal is non-negative and at least every line's total |
| CartPage.SumBounds | src/app/user/cart/page.tsx:19-22 | the same bounds for the reference sum |
| CartPage.Noun | src/app/user/cart/page.tsx:34 | "item" exactly for one line, "items" otherwise |
| CartPage.Heading | src/app/user/cart/page.tsx:34 | starts with "Your Cart (" and ends with " item)" exactly when the cart has one line, otherwise with " items)" |
| CartPage.HeadingInjective | src/app/user/cart/page.tsx:34 | equal headings mean carts of equal size |
| CartPage.Stepped | src/app/user/cart/page.tsx:74-86 | minus asks for quantity − 1, plus for quantity + 1 |
| CartPage.MinusNeverBelowOne | src/app/user/cart/page.tsx:166-167 | the minus button goes on only from quantity two, the plus button from zero, and both need a user |
| CartPage.CheckoutDecision | src/app/user/cart/page.tsx:199-214 | no user first, then a blank address, then a declined confirmation; the checkout proceeds exactly when none applies |
| CartPage.Reported | src/app/user/cart/page.tsx:168-174 | a thrown store call shows the failure toast, any other the success toast |
| CartPage.UpdateQuantity | src/app/user/cart/page.tsx:166-175 | below one or without a user nothing is sent and no toast; otherwise the store's `Mutated` state and the matching toast |
| CartPage.RemoveItemFromCart | src/app/user/cart/page.tsx:177-186 | unconfirmed or without a user nothing happens; otherwise the remove and its toast |
| CartPage.ClearCartItems | src/app/user/cart/page.tsx:188-197 | unconfirmed or without a user nothing happens; otherwise the clear and its toast |
| CartPage.HandleCheckout | src/app/user/cart/page.tsx:199-223 | each refused checkout shows its own toast and leaves the store; a confirmed one checks out with the untrimmed address and reports it |
| CartPage.CheckoutSendsAddress | src/app/user/cart/page.tsx:205-217 | a checkout that goes ahead sends exactly the typed address for the user after what was sent before |
| ReviewPage.Merge | src/app/user/review/page.tsx:78 | `{ ...review, ...data }`: each field the answer carries wins, every other field is kept |
| ReviewPage.MergeIdempotent | src/app/user/review/page.tsx:78 | merging the same answer twice equals merging once |
| ReviewPage.EditRequest | src/app/user/review/page.tsx:69-73 | the edit payload carries the edited fields and always the page's customer and restaurant ids |
| ReviewPage.MergeReviews | src/app/user/review/page.tsx:77-79 | the list keeps its length; only reviews with the id are merged |
| ReviewPage.DropReview | src/app/user/review/page.tsx:58 | no review with the id remains, all others do |
| ReviewPage.DropReviewExact | src/app/user/review/page.tsx:58 | exactly the reviews with the id are dropped and the rest keep their order |
| ReviewPage.ReviewsPage.constructor | src/app/user/review/page.tsx:17-19 | no reviews, loading, no error |
| ReviewPage.ReviewsPage.FetchReviews | src/app/user/review/page.tsx:25-41 | the service's list replaces the local one and clears the error; a failure keeps the list and sets the load error; loading ends |
| ReviewPage.ReviewsPage.HandleDelete | src/app/user/review/page.tsx:51-64 | true, with the review dropped, exactly when the delete succeeded; false, with the list unchanged, otherwise |
| ReviewPage.ReviewsPage.HandleEdit | src/app/user/review/page.tsx:66-87 | true exactly for a 200 answer, whose fields are merged into the matching reviews; otherwise false and the list unchanged |
| ReviewForm.NameError | src/app/user/review/components/ReviewForm.tsx:32-38 | required when blank after trimming, otherwise too long above 50 units; empty exactly when neither |
| ReviewForm.TextError | src/app/user/review/components/ReviewForm.tsx:40-46 | required when blank after trimming, otherwise too long above 500 units; empty exactly when neither |
| ReviewForm.RatingError | src/app/user/review/components/ReviewForm.tsx:48-51 | the rating error exactly outside 1..5 |
| ReviewForm.ValidateForm | src/app/user/review/components/ReviewForm.tsx:24-55 | each field's error depends on that field alone, and the form is valid exactly when all three are empty |
| ReviewForm.Shown | src/app/user/review/components/ReviewForm.tsx:170 | `hoverRating \|\| rating` |
| ReviewForm.ReviewFormState.constructor | src/app/user/review/components/ReviewForm.tsx:12-21 | empty fields, rating 1, no hover, no errors |
| ReviewForm.ReviewFormState.HandleSubmit | src/app/user/review/components/ReviewForm.tsx:57-100 | a POST exactly when the form is valid; after an answered POST the fields reset to "", "", 1 with errors cleared and the thank-you shown; otherwise the fields stay and the errors are the validation's |
| ReviewForm.ReviewFormState.HandleStarClick | src/app/user/review/components/ReviewForm.tsx:102-105 | sets the rating and clears only the rating error |
| ReviewForm.ReviewFormState.HandleStarHover | src/app/user/review/components/ReviewForm.tsx:107-109 | sets only the hovered star |
| ReviewForm.ReviewFormState.HandleStarHoverLeave | src/app/user/review/components/ReviewForm.tsx:111-113 | clears the hover, after which star s is filled exactly when s ≤ rating |
| ReviewForm.ReviewFormState.ChangeName | src/app/user/review/components/ReviewForm.tsx:136-139 | sets the name and clears only the name error |
| ReviewForm.ReviewFormState.ChangeText | src/app/user/review/components/ReviewForm.tsx:151-154 | sets the text and clears only the text error |
| ReviewList.RenderStars | src/app/user/review/components/ReviewList.tsx:30-42 | five stars, star s filled exactly when s ≤ rating |
| ReviewList.StarsArePrefix | src/app/user/review/components/ReviewList.tsx:30-42 | filled stars come first; for ratings 0..5 exactly the first `rating` are filled |
| ReviewList.ReviewListState.constructor | src/app/user/review/components/ReviewList.tsx:20-28 | nothing edited, no error, no delete in flight |
| ReviewList.ReviewListState.ClickStar | src/app/user/review/components/ReviewList.tsx:36 | an editable star sets the edited rating; other clicks change nothing |
| ReviewList.ReviewListState.HandleEditClick | src/app/user/review/components/ReviewList.tsx:44-50 | copies the review's name, text and rating into the edit fields and clears the error |
| ReviewList.ReviewListState.HandleCloseModal | src/app/user/review/components/ReviewList.tsx:52-55 | closes the modal and clears the error |
| ReviewList.ReviewListState.BeginDelete | src/app/user/review/components/ReviewList.tsx:59 | the review's delete button is disabled while its delete is in flight; every other field stays as it was |
| ReviewList.ReviewListState.EndDelete | src/app/user/review/components/ReviewList.tsx:61-72 | the page's answer shows the overlay or the delete error, and no button stays disabled; the modal, the edit fields, the loading flag and the update overlay stay as they were |
| ReviewList.ReviewListState.HandleDelete | src/app/user/review/components/ReviewList.tsx:57-74 | the page drops the review exactly when the service accepted it; `deletingId` always ends null; an accepted delete shows the overlay, a rejected one sets the delete error and leaves the overlay; the edit state, the loading flag, the update overlay and the page's loading flag and error stay as they were |
| ReviewList.ReviewListState.HandleSubmit | src/app/user/review/components/ReviewList.tsx:76-108 | nothing without a review being edited; a blank name or text sets "Please fill in all fields" and calls nothing; otherwise the page is called, a 200 answer closes the modal, merges and shows the success overlay, any other sets the update error, and loading ends false; on the other paths the loading flag and the overlay are unchanged; the edit fields, the delete state and the page's loading flag and error never change |
| FormData.Get | src/app/components/menuItemCreateForm/page.tsx:42-48 | `get` finds a value exactly for an appended key, and it is an appended entry |
| FormData.GetDistinct | src/app/components/menuItemCreateForm/page.tsx:42-48 | when no key is appended twice, `get` reads every entry back |
| MenuItemCreate.CreateBodyFields | src/app/components/menuItemCreateForm/page.tsx:42-48 | the body holds exactly name, description, price, category, restaurantId and image, each once, with the form's values and the `id` prop |
| MenuItemCreate.CreateBodyPrice | src/app/components/menuItemCreateForm/page.tsx:45 | the price field reads back as the typed number |
| MenuItemCreate.CreateForm.constructor | src/app/components/menuItemCreateForm/page.tsx:27-32 | empty fields, price 0, no image |
| MenuItemCreate.CreateForm.HandleSubmit | src/app/components/menuItemCreateForm/page.tsx:34-73 | no POST exactly when a field is falsy (price 0 included); otherwise the body above; a 2xx answer resets the fields, bumps the file key and goes to the menu; any other status fails the create and leaves the form |
| MenuItemUpdate.ImageValue | src/app/components/menuItemUpdateForm/page.tsx:74 | the new file, else the stored image URL when non-empty, else "" |
| MenuItemUpdate.UpdateBodyFields | src/app/components/menuItemUpdateForm/page.tsx:68-74 | the body holds the six fields once each, in the order appended |
| MenuItemUpdate.UpdateForm.constructor | src/app/components/menuItemUpdateForm/page.tsx:28-36 | nothing loaded, empty fields, loading |
| MenuItemUpdate.UpdateForm.LoadItem | src/app/components/menuItemUpdateForm/page.tsx:39-61 | the loaded item fills name, description, price, category, image and restaurantId; a failed load leaves them |
| MenuItemUpdate.UpdateForm.HandleUpdate | src/app/components/menuItemUpdateForm/page.tsx:65-105 | the body is put with no field check; a 2xx answer resets the fields (but not restaurantId) and bumps the file key; any other leaves the form |
| UserRegistration.UserRegistrationForm.constructor | src/app/components/userRegistrationForm/page.tsx:12-17 | empty fields and messages |
| UserRegistration.UserRegistrationForm.HandleSubmit | src/app/components/userRegistrationForm/page.tsx:22-58 | the error is cleared first; mismatched passwords set "Passwords do not match" and send nothing; the payload omits the confirmation; a 201 sets the user store and the success message; another status sets the failure message |
| RestaurantRegistration.RestaurantRegistrationForm.constructor | src/app/components/restaurantRegistrationForm/page.tsx:16-26 | empty fields, no success, no image |
| RestaurantRegistration.RestaurantRegistrationForm.HandleSubmit | src/app/components/restaurantRegistrationForm/page.tsx:32-74 | no request exactly when one of the seven fields is empty, and the confirmation is never checked; the payload maps `owner_name`, role and imageUrl; only 201 sets success and the store; a rejection shows the server message or the generic one and clears success |
| RestaurantRegistration.RestaurantRegistrationForm.OnUploadSuccess | src/app/components/restaurantRegistrationForm/page.tsx:106-110 | only a "success" event records the public id, and no other field of the form changes |
| RestaurantRegistration.RestaurantRegistrationForm.SubmitEnabled | src/app/components/restaurantRegistrationForm/page.tsx:127 | enabled exactly when an image is uploaded |
| RestaurantRegistration.RestaurantRegistrationForm.SubmitLabel | src/app/components/restaurantRegistrationForm/page.tsx:128 | "Create Restaurant" exactly when enabled, "Upload Image First" exactly when not |
| LoginForm.Endpoint | src/app/components/loginForm/page.tsx:35-67 | each of the three roles has its own endpoint and no other role, the initial "" included, has one |
| LoginForm.EndpointsDistinct | src/app/components/loginForm/page.tsx:35-67 | different roles log in at different endpoints |
| LoginForm.LoginFormState.constructor | src/app/components/loginForm/page.tsx:19-21 | empty role, email and password |
| LoginForm.LoginFormState.HandleLogin | src/app/components/loginForm/page.tsx:27-82 | no request exactly for an unknown role; every role sends the same credentials; the stores change only on 201, a delivery person's session goes to the user store |
| Cloudinary.ImageUrl | src/app/restaurant/page.tsx:11-15 | an https URL on Cloudinary's host whose prefix does not depend on the public id and which ends with "/" and the public id |
| Cloudinary.ImageUrlInjective | src/app/restaurant/page.tsx:14 | for a fixed cloud and transformation, distinct public ids give distinct URLs |
| Cloudinary.ImageUrlSeparatesTransformations | src/app/components/userRestaurantCard/page.tsx:14 | transformations of different lengths give different URLs for one image |
| RestaurantHome.BannerUrl | src/app/restaurant/page.tsx:11-15 | the w_1920 template, ending with "/" and the public id |
| RestaurantHome.RestaurantHomePage.constructor | src/app/restaurant/page.tsx:8 | no details loaded |
| RestaurantHome.RestaurantHomePage.FetchRestaurant | src/app/restaurant/page.tsx:17-34 | no fetch exactly when the store has no restaurant id; otherwise the details URL, and the fetched record is shown |
| RestaurantCards.CardImageUrl | src/app/components/userRestaurantCard/page.tsx:11-15 | the w_960 template, ending with "/" and the public id |
| RestaurantCards.CardAndBannerDiffer | src/app/components/userRestaurantCard/page.tsx:14 | a card and the banner of the same image have different URLs |
| RestaurantCards.CardKey | src/app/components/userRestaurantCard/page.tsx:24 | the restaurant's id when truthy, else the index |
| RestaurantCards.CardKeysDistinct | src/app/components/userRestaurantCard/page.tsx:24 | keys are distinct when every restaurant has its own id, and when none has one |
| RestaurantCards.CardLink | src/app/components/userRestaurantCard/page.tsx:30 | "/user/restaurants/" followed by the id, or by "undefined" |
| RestaurantCards.CardLinkInjective | src/app/components/userRestaurantCard/page.tsx:30 | restaurants with different ids link to different pages |

## Left out

- Socket.IO: connecting, `join_order` emits and handler (re)registration are not modelled. The effects are event-driven I/O. Only the list patch the handler applies is modelled (`TrackOrders.TrackOrdersView.OnStatusUpdate`), with the open order it closes over taken as the current one. So is the refetch-on-event of the delivery person's page.
- The order loaders (`fetchUserOrders`, `fetchMyOrders`, `fetchAvailableOrders`) are not modelled: each only copies a reply into state or sets a fixed error.
- All `fetch` and axios calls are replies given as inputs. axios's default rejection of non-2xx statuses is configuration and is not assumed, so a `Response` may carry any status.
- Floating-point money is not modelled: the cart's taxes and total, and every `/ 100` and `toFixed(2)` display. The subtotal is over integers.
- MenuItemCreate.CreateForm.HandleSubmit: prices are integers. The number field also accepts decimal prices (9.99 is sent as "9.99"); those are not modelled, and neither is their rendering. The same holds for MenuItemUpdate.UpdateForm.HandleUpdate.
- CartPage.HandleCheckout: the checkout button sits inside a link to `/user/payment/checkout?total=…` and the handler does not prevent it, so every click also navigates to the payment page, refused checkouts included and before the store call returns. That navigation is not modelled: its `total` is a floating-point amount.
- Common.Suffix: counts characters (Unicode scalar values), where `slice(-k)` counts UTF-16 code units. The two agree for strings in the Basic Multilingual Plane; for an id with a character outside it, `slice(-k)` can cut a surrogate pair, which a Dafny string cannot hold.
- TrackOrders.CardTitle: takes the id's suffix through Common.Suffix, so the same gap applies to ids outside the Basic Multilingual Plane.
- Stripe payment and its API routes are foreign SDK and proxy calls, and are not modelled.
- localStorage persistence is I/O and is not modelled, nor are the localStorage writes of the login and registration forms. All three stores persist under the one key "user-storage"; the model treats them as independent objects in memory.
- Timers are left out: the success overlays' 3-second timeouts and the registration's redirect delay. `router.push` is a returned path.
- The locale-dependent `formatDate` and all console logging are not modelled.
- The `catch` branches of the review list's handlers are not modelled: the review page's handlers never throw. The same goes for the update form's outer `catch`.
- Cart.Fetched: `res.data.items` is taken to be present. An answer without `items` would set `undefined`, which the model does not represent.
- The image `File` objects are names only (`FormData.FileRef`).
- The update form's loaded `image` field is whatever the service's record carries.
- Common.JsLength: counts UTF-16 code units of Unicode scalar values. Lone surrogates cannot occur in a Dafny string.
- `Restaurant`, `Review` and the other TypeScript interfaces are reduced to the fields the pages read. src/interfaces/Restaurant.ts is not part of this model.
