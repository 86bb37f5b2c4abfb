# A verified model of the quad-dole shop core

This project models the core of a Django shop in Dafny. It covers four parts.

- **The order lifecycle** (`orders_*.dfy`). The database is a `Store` class. Its fields hold:
  - the orders, each order's items and each order's status history;
  - the product catalogue with its stock;
  - the next primary key.

  The modelled operations are:
  - `Order.save`, which assigns the order number;
  - the `pre_save`/`post_save` receivers;
  - the two checkout views, the customer's cancellation and the staff status update;
  - the admin page (`save_model`, the permission hooks, the two HTML summaries, the read-only fields);
  - the two order forms.

  Whether the receivers are connected is a parameter (`signals`), because their registration is not part of this model. The lemmas state what each view does in both cases. With the receivers connected:
  - a new order gets two 'pending' rows;
  - a customer's cancellation restores the stock twice and appends two history rows.

  Money is an exact rational (`real`), so the 20 % tax is exact. The clock is an input.
- **Account rules** (`users_*.dfy`), as pure functions over an abstract table of users:
  - e-mail normalisation;
  - `create_user` and `create_superuser`;
  - the full name and the profile image path;
  - the registration, edit and password-reset e-mail checks;
  - the password-length check;
  - the error-message reset on the registration form;
  - the post-login redirect and the `form_invalid` message list.
- **The slug suggestion** of the product admin page (`product_slug.dfy`). It covers the JavaScript `toLowerCase` followed by the two regular-expression replacements, and the guard that leaves a filled slug field alone.
- **The four catalogue import commands** (`import_*.dfy`). Records are JSON values (`Value`). Each command's tables are the fields of a class: brands, product models, products and images, categories and model links. Each `handle` is a loop over batches. Each `_process_batch` is a method proved against a specification function (`BatchSpec`) of the tables it starts from. The model follows Django's transaction rules. An exception caught inside `transaction.atomic` leaves the transaction unusable. Every later query in it raises, and the block rolls back quietly when it ends. This is why a refused insert in the product-model and product commands discards the whole batch and counts its rows as errors. A record whose id is a JSON list cannot be hashed, so the code raises where it tests or looks up that id: the brand, product-model and product imports stop there, and the category import drops the slice. An image URL that is a list makes the membership test of its chunk of images raise: that chunk is rolled back, the image loop ends, every queued image of the slice counts as an error, and the products and the earlier chunks stay written.

## Model

| member | source | states |
|---|---|---|
| OrderModels.ChoiceKeys | orders/models.py:9-22 | The stored values of a choice list, in order, one per choice. |
| OrderModels.Display | orders/models.py:131-132 | `get_status_display`: the label of the choice with that value, or the value itself when no choice has it. Django keeps the last label of a repeated value; the status values are distinct (`ChoiceFacts`), so the first choice with the value is the only one. |
| OrderModels.ChoiceFacts | orders/models.py:9-22 | Five distinct order statuses and four payment statuses; 'paid' is a payment status and never an order status. |
| OrderModels.OrderStatusIsNotPaid | orders/models.py:9-15 | No order status equals 'paid', so the 'paid' branches of the status update and of the receiver are dead. |
| OrderModels.Timestamp | orders/models.py:78 | `strftime("%Y%m%d%H%M%S")`: fourteen digits, zero-padded year, month, day, hour, minute, second. |
| OrderModels.OrderNumberFor | orders/models.py:78 | "ORD" followed by the fourteen-digit timestamp: 17 characters. |
| OrderModels.OrderNumberRoundTrip | orders/models.py:75-78 | A generated number fits the 20-character column and parses back to the instant it was made at. |
| OrderModels.OrderNumberInjective | orders/models.py:75-78 | Numbers made at different seconds differ. |
| OrderModels.DayMinute | orders/views.py:297 | `strftime('%d/%m/%Y %H:%M')`: sixteen characters of digits and separators. |
| OrderModels.NewOrder | orders/models.py:31-65 | A fresh order has status and payment status 'pending', no number, zero tax and shipping, and no `paid_at`. |
| OrderModels.AssignOrderNumber | orders/models.py:75-79 | An order that has a number keeps it; one without gets the number of the current instant; nothing else changes. |
| OrderModels.AssignedNumberNamesInstant | orders/models.py:76-78 | A number assigned on save parses back to the instant of the save. |
| OrderModels.GetTotalCost | orders/models.py:81-82 | The total cost adds the tax and the shipping to the amount, so with non-negative parts it is never below the amount. |
| OrderModels.GetCost | orders/models.py:107-108 | An item's cost is never negative for a non-negative price and is zero for quantity zero. |
| OrderModels.ItemString | orders/models.py:104-105 | "<quantity>x <product name>", or "[Produit supprimé]" once the product is gone. |
| OrderModels.AppendKeepsValid | orders/models.py:85-124 | Adding items or history rows to a stored order keeps every item and row attached to a stored order. |
| OrderModels.Store.AddHistory | orders/models.py:111-124 | Creating a history row appends it to that order's history and changes nothing else. |
| OrderModels.Store.BulkCreateItems | orders/models.py:85-102 | Bulk-creating items appends them, in order, to that order's items and changes nothing else. |
| OrderSignals.RestockEffect | orders/signals.py:41-44 | Restocking changes only stock; each product gains exactly the quantity the items hold of it; items without a product change nothing. |
| OrderSignals.RestockTwice | orders/signals.py:41-44 | Restocking the same items twice adds twice their quantities. |
| OrderSignals.RestoreItemStock | orders/signals.py:41-44 | The per-item loop leaves the catalogue equal to the restocked catalogue. |
| OrderSignals.TrackEffect | orders/signals.py:21-50 | The receiver does nothing without a primary key, for a missing row, or when the status is unchanged. A change appends exactly one row with the new status, owned by the order's user; a change to 'cancelled' restocks. |
| OrderSignals.TrackKeepsValid | orders/signals.py:21-50 | The receiver keeps the tables consistent. |
| OrderSignals.TrackNeverStampsPaidAt | orders/signals.py:46-47 | For an instance whose status is an order status, `paid_at` comes out as it went in. |
| OrderSignals.TrackStatusChanges | orders/signals.py:21-50 | The receiver's new tables and instance are those of its specification. |
| OrderSignals.InitialRow | orders/signals.py:13-18 | The row for a new order carries its status, the note 'Commande créée' and its owner. |
| OrderSignals.CreateInitialStatusHistory | orders/signals.py:7-18 | Only a newly created order gets that row; otherwise nothing changes. |
| OrderSignals.InsertKeepsValid | orders/models.py:30 | Inserting an order under a fresh number keeps the tables consistent. |
| OrderSignals.UpdateKeepsValid | orders/models.py:30 | Replacing a stored order by one whose number no other order holds keeps the tables consistent. |
| OrderSignals.WriteEffect | orders/models.py:79 | The write is refused exactly when another order holds the number, and then nothing changes. Otherwise a new order goes under the next id and a stored order is replaced in place. |
| OrderSignals.SaveEffect | orders/models.py:75-79 | Saving keeps the tables consistent and stores the order under the id the result names. |
| OrderSignals.SaveNewOrder | orders/signals.py:7-18 | Saving a new order is refused exactly when its number is taken. Otherwise it is inserted under the next id, with the initial history row when the receivers are connected. |
| OrderSignals.SaveStoredOrder | orders/models.py:75-79 | Saving a stored order under its own number always succeeds. |
| OrderSignals.SaveStoredTables | orders/signals.py:26-47 | Saving a stored order stores it as given and keeps its items. A history row is appended, and the stock restored on cancellation, only when the receivers run and the status changed. |
| OrderSignals.WriteOrder | orders/models.py:79 | The write step's new tables are those of its specification. |
| OrderSignals.SaveOrder | orders/models.py:75-79 | `save` with the `pre_save` and `post_save` receivers gives the tables and result of its specification. |
| OrderViews.CartItems | orders/views.py:62-76 | One item per cart line, in cart order, with that line's product and quantity and the product's price at the time of ordering. |
| OrderViews.CartTotalIsItemsCost | orders/views.py:61-82 | The order total equals the sum of the costs of the items created for it. |
| OrderViews.CollectItems | orders/views.py:59-79 | The cart loop returns exactly the cart's items and total and leaves every stock as it was. |
| OrderViews.PlaceOutcome | orders/views.py:85-96 | Placing fails on the unique number exactly when an order already holds it, and then nothing changes. Otherwise the order, its items and its rows are inserted under the next id. |
| OrderViews.PlaceOrderOutcome | orders/views.py:54-96 | Placing from the cart fails exactly when the instant's number is taken; otherwise one order is created. |
| OrderViews.PlacedTables | orders/views.py:85-96 | The tables after the insert, the items and the row: that order, those items and that history under the next id, and the rest as before. |
| OrderViews.PlacedKeepsValid | orders/views.py:85-96 | Inserting an order and giving it items and a row keeps the tables consistent. |
| OrderViews.PlaceOrderKeepsValid | orders/views.py:48-118 | Placing an order keeps the tables consistent. |
| OrderViews.PlaceOrderEffect | orders/views.py:60-96 | The placed order's items are the cart's lines and the stock is untouched. Its history is the receiver's row, when connected, then the buyer's 'pending' row. |
| OrderViews.PlacedOrderFields | orders/views.py:54-84 | The placed order has the buyer as owner and the buyer's e-mail, the cart total as amount, tax of 0.2 times the total, shipping of 10.00, and the form's addresses. |
| OrderViews.PendingRows | orders/views.py:91-96 | With the receivers connected a new order starts with two 'pending' rows; without them, with one. |
| OrderViews.PlaceOrderSteps | orders/views.py:85-96 | The save, the bulk insert and the history row compose to the placement specification. |
| OrderViews.PlaceOrder | orders/views.py:54-96 | The shared body of both checkout views leaves the tables its specification gives. |
| OrderViews.OrderCreateFormValid | orders/views.py:48-118 | An empty cart is refused with its message and redirect and nothing is created. Otherwise the order is placed and, once placed, the cart is emptied. |
| OrderViews.SingleProductFormValid | orders/views.py:136-189 | The same for the single-product checkout, with its own message and redirect for an empty cart. |
| OrderViews.FindOwnOrder | orders/views.py:195 | The lookup by number returns only an order owned by the requester. |
| OrderViews.FindOwnOrderFinds | orders/views.py:195 | Numbers are unique, so the lookup finds the one owned order holding the number. |
| OrderViews.CancelRefusalsChangeNothing | orders/views.py:195-217 | Another user's order, or an order already cancelled, shipped or delivered, leaves every table unchanged. |
| OrderViews.RowAfterStoredSave | orders/views.py:199-213 | The tables after a stored order was saved and a row appended to its history. |
| OrderViews.CancelEffect | orders/views.py:197-213 | A cancellation sets the status to 'cancelled', touches no other order and no item, and appends the customer's row. With the receivers connected, a second row is appended first. |
| OrderViews.CancelKeepsValid | orders/views.py:194-219 | A cancellation keeps the tables consistent. |
| OrderViews.CancelRestocks | orders/views.py:202-205 | Every product gains the quantity the order held of it: once without the receivers and twice with them. |
| OrderViews.OrderCancelPost | orders/views.py:194-219 | The view leaves the tables and the answer of its specification. |
| OrderViews.AdminInvalidStatusChangesNothing | orders/views.py:271-303 | A missing or unlisted status changes nothing and is answered with the JSON failure or the redirect. |
| OrderViews.AdminValidStatusEffect | orders/views.py:271-286 | A listed status, even the current one, is stored and `paid_at` is left alone. The staff row with the given notes closes the history. |
| OrderViews.AdminValidStatusAnswer | orders/views.py:288-298 | A listed status is answered with its label and the minute of the update for AJAX, with the redirect otherwise. |
| OrderViews.AdminUpdateKeepsValid | orders/views.py:266-303 | The staff update keeps the tables consistent. |
| OrderViews.AdminStatusUpdatePost | orders/views.py:262-303 | A user who is not staff is refused with 403 and nothing changes; for a staff member the view leaves the tables and the answer of its specification. |
| OrderViews.AdminNonStaffRefused | orders/views.py:262-264 | A signed-in user who is not staff changes nothing, whatever the order and status posted, and is answered 403 with no message. |
| OrderAdmin.PyFormatNoArgs | orders/admin.py:66-70 | `format_html` with no arguments: a doubled brace stands for one brace, and any other brace raises. |
| OrderAdmin.FormatOfEscaped | orders/admin.py:66-70 | Formatting text whose braces were doubled gives the text back. |
| OrderAdmin.LoneBraceFails | orders/admin.py:66-70 | A text with a lone brace makes the format raise. |
| OrderAdmin.LoneBraceInside | orders/admin.py:77-85 | A lone brace stays lone with brace-free text before it. |
| OrderAdmin.ItemsAsWrittenAgrees | orders/admin.py:62-70 | Without braces in the item texts the code as written and the corrected page agree. |
| OrderAdmin.ItemsAsWrittenFailsOnBrace | orders/admin.py:66-70 | An order with one item whose product is called "Pack {2}" makes the item list raise. |
| OrderAdmin.ViewOrderItemsShape | orders/admin.py:62-70 | An order without items shows "Aucun article"; otherwise the list shows one entry per item. |
| OrderAdmin.InsertNewest | orders/admin.py:74 | Insertion into a newest-first list keeps every row and adds the new one: the rows form the same multiset plus the new row. |
| OrderAdmin.InsertNewestSorted | orders/admin.py:74 | Insertion into a list sorted newest first keeps it sorted. |
| OrderAdmin.NewestFirstSorts | orders/admin.py:74 | The history is shown as exactly its rows, newest first. |
| OrderAdmin.InsertNewestFront | orders/admin.py:74 | A row newer than every listed row goes in front. |
| OrderAdmin.NewestFirstOfStrictlyDated | orders/admin.py:74 | Rows added at strictly increasing instants are shown in reverse order of writing. |
| OrderAdmin.ViewStatusHistoryShape | orders/admin.py:73-85 | An order without history shows "Aucun historique"; otherwise one entry per row, the rows shown being exactly the order's rows, newest first. |
| OrderAdmin.HistoryAsWrittenAgrees | orders/admin.py:73-85 | Without braces in the notes the code as written and the corrected page agree. |
| OrderAdmin.HistoryAsWrittenFailsOnBrace | orders/admin.py:77-85 | One row whose notes start with a lone '{' makes the history summary raise. |
| OrderAdmin.MinuteHasNoBraces | orders/admin.py:80 | The minute stamp has no braces. |
| OrderAdmin.DisplayHasNoBraces | orders/admin.py:80 | The label shown for a value, taken from a list whose labels have no braces, has none when the value has none. |
| OrderAdmin.StatusLabelsHaveNoBraces | orders/models.py:9-15 | None of the five status labels holds a brace. |
| OrderAdmin.DisplayIsLabel | orders/admin.py:80 | The displayed status is a label of the list or the value itself. |
| OrderAdmin.EditableOrderFields | orders/admin.py:37-59 | The order page edits the two statuses, the addresses, the phone number, the e-mail and the notes, and nothing else. |
| OrderAdmin.EditableNotReadOnly | orders/admin.py:37-59 | No field is both read-only and editable. |
| OrderAdmin.EditableInlineFields | orders/admin.py:8-23 | The item inline edits nothing; the history inline edits a row's status and notes only. `OrderAdmin.inlines` registers only the history inline (orders/admin.py:60), so the item inline's rule is stated but never shown on the order page. |
| OrderAdmin.HistoryRowsProtected | orders/admin.py:25-26 | No history row is deleted from the order page or added or changed on the history admin; everything else follows the user's permissions. |
| OrderAdmin.AdminEditsKeepReadOnly | orders/admin.py:37-40 | An edit through the page leaves number, owner, totals and dates as they were. |
| OrderAdmin.ChangedDataFacts | orders/admin.py:90 | Only editable fields are reported changed, the status exactly when it changed, the notes exactly when their text changed (a null note reads as ""). Nothing is reported exactly when the page leaves the order as it was apart from a null note becoming "", and, when the notes are both null or both set, exactly when the order is unchanged. |
| OrderAdmin.EmptyNoteNoChange | orders/admin.py:90 | A null stored note submitted back as "" is not reported as changed, though the order then stores "". |
| OrderAdmin.ActorName | orders/admin.py:95 | The note names the staff member's full name, or the e-mail when the full name is empty. |
| OrderAdmin.RowBeforeStoredSave | orders/admin.py:88-97 | The tables after the staff row and then the save. |
| OrderAdmin.SaveModelStatusChange | orders/admin.py:88-97 | A change-page save with the status changed appends the staff row attributed to the actor, then the receiver's row when connected. |
| OrderAdmin.SaveModelWithoutStatusChange | orders/admin.py:88-97 | Without a status change, or on the add page, the admin adds nothing to a plain save. |
| OrderAdmin.AdminEditChangingStatus | orders/admin.py:88-97 | Changing the status on the change page stores the page's values and appends the staff row. |
| OrderAdmin.AdminEditKeepingStatus | orders/admin.py:88-97 | Keeping the status stores the page's values and appends no row. |
| OrderAdmin.SaveModel | orders/admin.py:88-97 | `save_model` leaves the tables of its specification. |
| OrderForms.Cleaned | orders/forms.py:8 | A cleaned text value: absent counts as empty and surrounding whitespace is stripped. |
| OrderForms.BindValuesResult | orders/forms.py:5-34 | The cleaned values are accepted exactly when the required ones are non-empty, the phone number has at most 20 characters and none holds a NUL; the accepted data is those values, empty notes staying "" (a `TextField`'s form field never cleans to null); otherwise only form fields are named. |
| OrderForms.BindOrderFormResult | orders/forms.py:5-34 | The form accepts exactly the data whose three required fields are non-empty once stripped, with a phone number of at most 20 characters and no NUL. What it accepts is the cleaned values, the notes included as given ("" when absent). |
| OrderForms.BindIgnoresOtherKeys | orders/forms.py:8 | Keys outside the four form fields are ignored. |
| OrderForms.ProfileAttr | orders/forms.py:42-47 | Reading a profile attribute gives its value, or an AttributeError for a name the profile lacks. |
| OrderForms.PrefillAsWrittenFails | orders/forms.py:41-45 | For any signed-in user the form as written raises before it is built. |
| OrderForms.PrefillResult | orders/forms.py:41-47 | Nothing is pre-filled without a signed-in user. A signed-in user's phone number is pre-filled when set, and the addresses start empty. |
| OrderForms.PrefillAgrees | orders/forms.py:41-47 | Where the code as written gets through, it pre-fills what the corrected version does. |
| OrderForms.WithoutStatusMembers | orders/forms.py:73-76 | A choice is kept exactly when its value is not the current status. |
| OrderForms.WithoutAbsent | orders/forms.py:73-76 | A list without the current status is kept as it is. |
| OrderForms.WithoutOnce | orders/forms.py:73-76 | With distinct values, exactly the entry holding the current status is dropped and the others keep their order. |
| OrderForms.StatusUpdateChoicesOffered | orders/forms.py:68-78 | With an order, the field offers the blank choice first, then exactly the other order statuses. |
| OrderForms.StatusUpdateChoicesShape | orders/forms.py:68-78 | For an order in a listed status, the blank choice and the four others in model order. For an unlisted status, all five. Without an order, the field is untouched. |
| OrderForms.StatusUpdateForm.constructor | orders/forms.py:63-78 | The form's status choices are those the filter gives for the order passed in. |
| ProductSlug.LowerChar | products/static/admin/product.js:44 | The JavaScript lower case of one character: a slug character stays itself, and any character gives one or two characters. |
| ProductSlug.SkipRun | products/static/admin/product.js:45 | Drops the leading run of characters outside a-z and 0-9. |
| ProductSlug.Collapse | products/static/admin/product.js:45 | Each maximal run outside a-z and 0-9 becomes one '-': only slug characters, never two dashes in a row, letters and digits kept in order. |
| ProductSlug.TrimDashes | products/static/admin/product.js:46 | Removes one '-' at the start and one at the end; "-" becomes empty. |
| ProductSlug.TrimKeepsAlnums | products/static/admin/product.js:46 | Trimming keeps the letters and digits. |
| ProductSlug.TrimCollapsed | products/static/admin/product.js:45-46 | Trimming a collapsed string yields a slug. |
| ProductSlug.SlugifyShape | products/static/admin/product.js:43-46 | The slug uses only a-z, 0-9 and '-', never has two dashes in a row or a dash at either end, and keeps the lower-cased letters and digits in order. |
| ProductSlug.NoAlnumsGivesEmpty | products/static/admin/product.js:45-46 | A name without letters or digits gives the empty slug. |
| ProductSlug.SlugifyIdempotent | products/static/admin/product.js:43-46 | Slugifying a slug gives it back. |
| ProductSlug.OnNameBlur | products/static/admin/product.js:40-50 | A slug field holding a value is left alone; an empty one receives the slug of the name. |
| UserModels.ProfileImagePathRoundTrip | users/models.py:7-9 | The user id and the file name are both recovered from the path, whatever the file name is. |
| UserModels.NormalizeEmail | users/models.py:15 | An address with '@' is stripped and its domain part lower-cased; any other is returned as given. |
| UserModels.LowerDomain | users/models.py:15 | Lower-cases what follows the last '@'. |
| UserModels.LowerDomainFacts | users/models.py:15 | A domain-lowered address keeps its last '@' and lowering again changes nothing. |
| UserModels.NormalizeEmailIdempotent | users/models.py:15 | Normalising twice is normalising once. |
| UserModels.NormalizedDomainIsLower | users/models.py:15 | No ASCII capital is left in the domain part. |
| UserModels.CreateUser | users/models.py:12-19 | An empty e-mail is refused. Otherwise the user gets the normalised e-mail and the given flags, each absent flag at the model's default. |
| UserModels.SetDefault | users/models.py:22-24 | `setdefault` keeps a present flag and adds an absent one. |
| UserModels.CreateSuperuser | users/models.py:21-30 | The flags default to true; a staff flag other than true is refused first, then a superuser flag; then the e-mail check. `is_active=False` is accepted. |
| UserModels.GetFullName | users/models.py:52-57 | First and last name joined by one space, stripped; empty when both are empty. |
| UserModels.FullNameOfTrimmedNames | users/models.py:52-57 | Names without surrounding whitespace give exactly "<first> <last>". |
| UserModels.ShortNameBeginsFullName | users/models.py:52-61 | The short name is the first name and begins the full name when it has no surrounding whitespace. |
| UserAuthForms.CleanPassword1 | users/forms/authentication.py:81-85 | A password shorter than 8 characters is refused; any other is returned unchanged. |
| UserAuthForms.PasswordChecksAgree | users/forms/authentication.py:60-85 | The method check repeats the declared minimum of 8: a password passes one exactly when it passes the other. |
| UserAuthForms.CleanEmail | users/forms/authentication.py:126-133 | An address some user already holds, exactly, is refused with code 'unique_email'; any other is returned unchanged. |
| UserAuthForms.CleanEmailRefusesRegistered | users/forms/authentication.py:126-133 | Once an address is registered, the same address is refused. |
| UserAuthForms.RegisterForm.constructor | users/forms/authentication.py:120-124 | After construction every field's message table is only the 'required' message. |
| UserAuthViews.SuccessUrl | users/views/authentication.py:20-28 | A non-empty `next` wins whatever the role; otherwise staff and superusers go to the admin dashboard and everyone else home. |
| UserAuthViews.FieldLines | users/views/authentication.py:52-53 | One line per error of a field, prefixed by its label, or by the raw key for an unknown field. |
| UserAuthViews.ErrorLinesCount | users/views/authentication.py:50-53 | One line per (field, error) pair and no other. |
| UserAuthViews.ErrorLineAt | users/views/authentication.py:50-53 | A field's k-th error is the line after all earlier fields' errors plus k. |
| UserAuthViews.FormInvalidMessages | users/views/authentication.py:49-58 | The nested loops build exactly the lines of the specification, in order. |
| UserAuthViews.LoginFormValid | users/views/authentication.py:30-47 | An inactive user gets the inactive message and the form's error lines and is not logged in (a branch Django's login form keeps from being reached). An active user is logged in exactly when the login step does not raise, and is redirected exactly when, in addition, `next` is empty or its scheme is allowed; the redirect then goes to `get_success_url()` with only the welcome message. Otherwise the welcome message, the generic error and one message per form error line are flashed, and there is no redirect; a refused `next` is refused after the login, so the user stays logged in. |
| UserAuthViews.ColonAt | users/views/authentication.py:22-24 | The first ':' of the target, or its length when it has none: no ':' before the position, a ':' at it. |
| UserAuthViews.SchemeOf | users/views/authentication.py:22-24 | A `next` made of a scheme, a ':' and text without tabs or newlines has that scheme, lower-cased, as the redirect sees it. |
| UserAuthViews.JavascriptRefused | users/views/authentication.py:22-24 | A `next` of the form "javascript:..." has a scheme the redirect refuses. |
| UserAuthViews.HttpsAllowed | users/views/authentication.py:22-24 | A `next` of the form "HTTPS:..." has the scheme "https", which the redirect accepts. |
| UserAuthViews.NoColonRedirectAllowed | users/views/authentication.py:22-24 | A `next` without ':', such as a path, has no scheme and is accepted. |
| UserAuthViews.LoginRedirects | users/views/authentication.py:20-42 | Without `next`, or with a `next` that is a path, an active user whose login goes through is redirected to `get_success_url()`. |
| UserAuthViews.LoginRefusesJavascript | users/views/authentication.py:22-47 | A `next` of the form "javascript:..." leaves the user logged in, with the welcome message and the generic error and no redirect. |
| UserManagementForms.EditCleanEmail | users/forms/user_management.py:106-110 | Refused exactly when a user other than the edited one holds the address; otherwise returned unchanged. |
| UserManagementForms.KeepingOwnEmailAccepted | users/forms/user_management.py:108 | A user keeping their own address is accepted. |
| UserManagementForms.TakingOthersEmailRefused | users/forms/user_management.py:106-109 | Taking another user's address is refused. |
| UserManagementForms.FieldNamed | users/forms/user_management.py:9-50 | The field of the create form with a given name, if any. |
| UserManagementForms.CreateFormDefaults | users/forms/user_management.py:18-38 | Only the e-mail is required, the names may be empty, and the account starts out active. |
| PasswordResetForms.ResetCleanEmail | users/forms/password_reset.py:20-24 | Refused unless an active user's address matches regardless of case; an accepted address is returned as typed. |
| PasswordResetForms.ResetMatchIgnoresCase | users/forms/password_reset.py:22 | Two spellings differing only in case are accepted or refused alike. |
| PasswordResetForms.InactiveUsersIgnored | users/forms/password_reset.py:22 | Removing an inactive user changes no answer. |
| PasswordResetForms.ActiveUserAccepted | users/forms/password_reset.py:22-24 | An active user's own address is accepted in any mixture of case. |
| ImportCommon.ChunksCover | products/management/commands/import_product_models.py:58-60 | The slices of `range(0, n, k)` put back together are the input, in order. |
| ImportCommon.ChunksSizes | products/management/commands/import_product_models.py:58-60 | Every slice is non-empty and holds at most `k` records; all but the last hold exactly `k`. |
| ImportCommon.ChunksPosition | products/management/commands/import_product_models.py:58-60 | Record `q * k + r` is record `r` of slice `q`, so each record lies in exactly one slice. |
| ImportCommon.ChunksOfFull | products/management/commands/import_brands.py:131-132 | Full slices followed by a remainder are chunked into exactly those slices first. |
| ImportCommon.ChunksStep | products/management/commands/import_product_models.py:58-59 | One slice taken off the front, as one turn of the loop over `range` takes it. |
| ImportCommon.StoredIdRefused | products/management/commands/import_product_models.py:123-129 | An insert whose new row's id is already stored fails as a whole. |
| ImportCommon.LastWinsValue | products/management/commands/import_brands.py:134 | The value a dictionary built from pairs keeps for an id is that of its last pair. |
| ImportCommon.UnionUpdateRight | products/management/commands/import_brands.py:141-145 | Overriding a key of the right operand of a map union. |
| ImportCommon.UnionUpdateLeft | products/management/commands/import_brands.py:141-145 | Overriding a key the right operand lacks. |
| ImportCommon.ChunkedUpdateRows | products/management/commands/import_brands.py:131-153 | Chunked updates leave every stored row named in the list with the values of its last pair, add no row, and leave the rest untouched. |
| ImportCommon.ChunkedUpdateStored | products/management/commands/import_brands.py:131-153 | When every pending id is stored, the chunked updates amount to one dictionary update with each id's last values. |
| ImportCommon.ChunkedUpdateCountBound | products/management/commands/import_brands.py:140-155 | The update count never exceeds the number of pairs. |
| ImportCommon.ChunkedUpdateCountAll | products/management/commands/import_brands.py:140-155 | With distinct, all stored ids, every pair counts once. |
| ImportCommon.UpdateInChunks | products/management/commands/import_brands.py:128-155 | The chunk loop leaves the table and count of the chunked-update specification. |
| ImportBrands.ValidRecords | products/management/commands/import_brands.py:56-64 | The batched records, in file order, never more than the file holds. |
| ImportBrands.ValidRecordsMembers | products/management/commands/import_brands.py:58-62 | A record is batched exactly when it has an id and a name. |
| ImportBrands.BrandBatches | products/management/commands/import_brands.py:64-73 | The valid records in order, cut into batches of exactly `batch_size` records except a shorter last one. |
| ImportBrands.PartitionFacts | products/management/commands/import_brands.py:99-114 | Every record of a batch goes to exactly one list: to the updates when its id was stored when the import began, else to the inserts. |
| ImportBrands.BatchCommitted | products/management/commands/import_brands.py:94-155 | A committed batch leaves every brand it names with the name and image of its last record, and every other brand as it was. |
| ImportBrands.BatchCounts | products/management/commands/import_brands.py:117-155 | One creation per inserted brand, and at most one update per record sent to the updates. |
| ImportBrands.RepeatedNewIdRaises | products/management/commands/import_brands.py:54 | The stored ids are read once: a brand an earlier batch created is inserted again, and that batch raises. |
| ImportBrands.RunBatchesComplete | products/management/commands/import_brands.py:56-73 | When no batch raises, every brand of the file holds the values of its last record and every other brand is untouched. |
| ImportBrands.NotAListImportsNothing | products/management/commands/import_brands.py:46-50 | A file that is not a list imports nothing. |
| ImportBrands.ImportComplete | products/management/commands/import_brands.py:52-79 | A completed import counts the records without id or name as skipped and leaves every brand of the file with its last record's values. |
| ImportBrands.BrandTable.ProcessBatch | products/management/commands/import_brands.py:89-161 | The batch's new table and counters are those of its specification; a batch that raises, on a list id or a refused insert, changes nothing. |
| ImportBrands.BrandTable.Partition | products/management/commands/import_brands.py:99-114 | The partition loop stops exactly when a record's id is a list; otherwise it returns the insert and update lists of the specification. |
| ImportBrands.RunBatchesListId | products/management/commands/import_brands.py:99-106 | A batch holding a record whose id is a list raises, and the import stops. |
| ImportBrands.ListIdFails | products/management/commands/import_brands.py:99-106 | A valid record whose id is a list makes the whole import fail, whatever else the file holds. |
| ImportBrands.BrandTable.Send | products/management/commands/import_brands.py:66-73 | Sending one more batch leaves the table and counters of running the batches sent so far and then it, or the failure. |
| ImportBrands.BrandTable.Handle | products/management/commands/import_brands.py:42-87 | The import loop's result and table are those of the specification over the file's batches. |
| ImportBrands.FlushStep | products/management/commands/import_brands.py:66-69 | A batch that reaches `batch_size` records is sent. |
| ImportBrands.SentFirst | products/management/commands/import_brands.py:56-69 | With no batch pending, the batches of the whole file start with the ones sent so far. |
| ImportBrands.EndShape | products/management/commands/import_brands.py:71-73 | After the last record, the sent batches and the pending one are the batches of the whole file. |
| ImportBrands.Finish | products/management/commands/import_brands.py:75-79 | The result once all batches committed. |
| ImportBrands.FinishFailed | products/management/commands/import_brands.py:159-161 | The result once one batch raised. |
| ImportBrands.RunBatchesSnoc | products/management/commands/import_brands.py:67-68 | Sending one more batch after the ones sent so far. |
| ImportBrands.RunBatchesStopped | products/management/commands/import_brands.py:85-87 | A batch that raised ends the import; the batches after it are never sent. |
| ImportProductModels.PartitionFacts | products/management/commands/import_product_models.py:85-120 | Every record is skipped, inserted or updated, exactly one of them; updated exactly when its id was stored; skipped plus inserts plus updates is the slice length. |
| ImportProductModels.AcceptedMembers | products/management/commands/import_product_models.py:87-101 | A record is written exactly when it has an id, a name and a brand id naming a stored brand. |
| ImportProductModels.PartitionLastWins | products/management/commands/import_product_models.py:106-120 | Inserts and updates together give every accepted id the values of its last record, with the image defaulting to "". |
| ImportProductModels.BatchCommitted | products/management/commands/import_product_models.py:122-168 | A slice whose insert goes through leaves every accepted model with its last record's values and the rest as they were, and counts one creation per insert. |
| ImportProductModels.BatchRefused | products/management/commands/import_product_models.py:123-172 | A slice whose insert is refused changes no model, creates and updates nothing, and counts every record it would have written as an error. |
| ImportProductModels.RepeatedNewIdRefused | products/management/commands/import_product_models.py:55 | The stored ids are read once: a model an earlier slice created is inserted again and that slice is refused. |
| ImportProductModels.RunBatchesSkipped | products/management/commands/import_product_models.py:85-101 | The skipped counter ends up counting every record the command does not write. |
| ImportProductModels.ModelBatches | products/management/commands/import_product_models.py:58-60 | For a positive batch size, the slices cover the file in order, all full except a shorter last one. |
| ImportProductModels.ImportOutcome | products/management/commands/import_product_models.py:47-74 | For a positive batch size, a list is imported to the end exactly when no accepted record has a list id; a list id fails the import. A zero batch size makes `range` raise first. A negative batch size gives no slice. A completed import counts every unwritten record as skipped. |
| ImportProductModels.AnyListIdAppend | products/management/commands/import_product_models.py:112 | A list id in two runs of records is a list id in one of them. |
| ImportProductModels.RunBatchesRaise | products/management/commands/import_product_models.py:112 | The slices stop short exactly when an accepted record of one of them has a list for its id. |
| ImportProductModels.NotAListImportsNothing | products/management/commands/import_product_models.py:47-49 | A file that is not a list imports nothing. |
| ImportProductModels.ModelTable.Partition | products/management/commands/import_product_models.py:85-120 | The validation loop stops exactly when an accepted record has a list id; otherwise it returns the skipped count and the insert and update lists of the specification. |
| ImportProductModels.ModelTable.ProcessBatch | products/management/commands/import_product_models.py:76-176 | The slice's table and counters are those of its specification; a slice that raises on a list id changes nothing. |
| ImportProductModels.ModelTable.Write | products/management/commands/import_product_models.py:122-172 | The insert and chunked updates inside the transaction leave the table and counters of the write specification. |
| ImportProductModels.ModelTable.Handle | products/management/commands/import_product_models.py:33-74 | The slice loop's table and result are those of the import specification. |
| ImportProductModels.ModelTable.RunSlices | products/management/commands/import_product_models.py:58-60 | The loop over the slices leaves the table and counters of running the slices of the file in order, stopping at a slice that raises. |
| ImportProductModels.ModelTable.SendSlice | products/management/commands/import_product_models.py:58-60 | Running the next slice keeps the whole loop's outcome: the loop goes on from the table and counters it left, or ends where it raised. |
| ImportProductModels.Advance | products/management/commands/import_product_models.py:58-60 | The first slice of the records left: when it ran, the rest of the import is the slices after it; when it raised, the import ends. |
| ImportProducts.ImagesChunked | products/management/commands/import_products.py:233-242 | The image table never shrinks across the chunks of 500, including when a chunk raises and ends the loop. |
| ImportProducts.PartitionFacts | products/management/commands/import_products.py:110-163 | Every record is skipped, inserted or updated, exactly one of them, by whether its product is stored; skipped plus inserts plus updates is the slice length. |
| ImportProducts.PartitionLastWins | products/management/commands/import_products.py:143-163 | Inserts and updates together give every accepted id the values of its last record, with the documented defaults. |
| ImportProducts.ImagesAppend | products/management/commands/import_products.py:165-179 | The images of consecutive records are queued in record order: main image first when truthy, then the extras. |
| ImportProducts.SkipImagesQueuesNothing | products/management/commands/import_products.py:166 | With images skipped, a slice queues no image. |
| ImportProducts.AnyRaisesAppend | products/management/commands/import_products.py:147 | A raising record anywhere in a file makes it raise. |
| ImportProducts.NewImagesMembers | products/management/commands/import_products.py:261-268 | The membership test raises exactly when the chunk holds a list-valued URL; otherwise the new images of a chunk are its images the query did not return, and only those. |
| ImportProducts.StoredForChunk | products/management/commands/import_products.py:255-259 | An image of the chunk is returned by the restricted query exactly when it is stored. |
| ImportProducts.ImageChunkAppends | products/management/commands/import_products.py:252-283 | A chunk raises exactly when it holds a list-valued URL, and then adds nothing; otherwise it appends exactly its images not stored yet, so a stored image is never queued again. |
| ImportProducts.ImagesChunkedFacts | products/management/commands/import_products.py:233-242 | After the chunks, the image table keeps what it held; the loop raised exactly when some queued URL is a list, and otherwise the table holds every queued image and nothing else. |
| ImportProducts.RaisingChunkStartFacts | products/management/commands/import_products.py:234-236 | The chunk that raises begins at a multiple of 500 and holds a list-valued URL; no queued image before it has one. |
| ImportProducts.ImagesChunkedStored | products/management/commands/import_products.py:233-242 | The loop raised exactly when some chunk raised, and the table then holds what it held plus the images of the chunks before that one. |
| ImportProducts.BatchCommitted | products/management/commands/import_products.py:181-242 | A slice whose insert goes through leaves every accepted product with its last record's values and runs the image loop; with no list-valued URL it stores every queued image and counts no error, otherwise every queued image counts as an error. |
| ImportProducts.BatchRefused | products/management/commands/import_products.py:182-194 | A slice whose insert is refused changes neither table and counts every product and image it would have written as an error. |
| ImportProducts.Advance | products/management/commands/import_products.py:72-82 | The first slice runs in its transaction: when it raised, the import ends there with the tables as they were; otherwise the later slices continue from the tables and counters it left. |
| ImportProducts.ProductStore.SendSlice | products/management/commands/import_products.py:72-82 | Running the next slice keeps the whole loop's outcome. The import either continues from the new tables and counters or has failed with the tables as they are. |
| ImportProducts.ProductStore.RunSlices | products/management/commands/import_products.py:72-82 | The loop over the slices leaves the tables of running every slice of the file in order; its counters when no slice raised, the failure otherwise. |
| ImportProducts.ProductStore.Admit | products/management/commands/import_products.py:110-179 | One record's checks raise exactly when the record is accepted and its price, its id (a list, looked up at line 155) or its extra images raise; otherwise it queues the record's images. |
| ImportProducts.RunBatchesOutcome | products/management/commands/import_products.py:72-82 | The slices run to the end exactly when no record raises (on its price, a list id or its extra images), and the skipped counter then counts every record not written. |
| ImportProducts.ImportOutcome | products/management/commands/import_products.py:55-97 | A list runs to the end exactly when the batch size is not zero and no record raises; a negative batch size gives no slice. |
| ImportProducts.NotAListImportsNothing | products/management/commands/import_products.py:60-62 | A file that is not a list imports nothing. |
| ImportProducts.ProductStore.QueueRecordImages | products/management/commands/import_products.py:166-179 | The images one record queues, in order, or the failure when its extras are not iterable. |
| ImportProducts.ProductStore.Partition | products/management/commands/import_products.py:110-179 | The validation loop returns the skipped count, the insert and update lists and the queued images of the specification, or reports the raising record. |
| ImportProducts.ProductStore.ProcessImageChunk | products/management/commands/import_products.py:248-283 | One chunk's query and insert leave the image table of the chunk specification, or report the raise and leave the table as it was. |
| ImportProducts.ProductStore.ProcessImages | products/management/commands/import_products.py:233-242 | The chunk loop leaves the image table of the chunked specification and reports whether a chunk raised. |
| ImportProducts.ProductStore.Write | products/management/commands/import_products.py:181-242 | The writes inside the transaction leave the tables and counters of the write specification, a raising image chunk counting every queued image as an error. |
| ImportProducts.ProductStore.ProcessBatch | products/management/commands/import_products.py:99-246 | The slice's tables and counters are those of its specification; a raising slice changes nothing. |
| ImportProducts.ProductStore.Handle | products/management/commands/import_products.py:45-97 | The slice loop's tables and result are those of the import specification. |
| ImportModelCategories.PartitionFacts | products/management/commands/import_model_categories.py:59-104 | Every accepted record is created or updated, by whether its category is stored; a record not accepted contributes nothing. |
| ImportModelCategories.GroupsFacts | products/management/commands/import_model_categories.py:106-109 | One key per category of the slice, in order of first appearance and without repeats, listing the models of its records in order. |
| ImportModelCategories.FirstWinsValue | products/management/commands/import_model_categories.py:125-130 | Within one update statement a category takes the values of its first occurrence. |
| ImportModelCategories.UpdateChunkedKeeps | products/management/commands/import_model_categories.py:125-130 | The updates change only the categories they name, and add none. |
| ImportModelCategories.SingleStatementUpdate | products/management/commands/import_model_categories.py:125-130 | At most 1000 updates form one statement: each category takes the values of its first record. |
| ImportModelCategories.QueuedAsWrittenMembers | products/management/commands/import_model_categories.py:137-138 | As written, the queued models are a category's models not linked yet, and only those. |
| ImportModelCategories.QueuedMembers | products/management/commands/import_model_categories.py:137-146 | Corrected, the same models are queued, each once. |
| ImportModelCategories.QueuedAgree | products/management/commands/import_model_categories.py:137-138 | Where no model repeats, the code as written and the corrected version queue the same models. |
| ImportModelCategories.BatchWrites | products/management/commands/import_model_categories.py:111-152 | A slice that goes through creates its new categories with their records' values and leaves unnamed categories alone. Every category it names is linked to its records' models. |
| ImportModelCategories.GroupKeys | products/management/commands/import_model_categories.py:106-109 | The categories of a slice are those of its accepted records, stored or new. |
| ImportModelCategories.BatchCountsAccepted | products/management/commands/import_model_categories.py:154 | The returned pair counts every accepted record once, split into created and updated. |
| ImportModelCategories.AsWrittenAgrees | products/management/commands/import_model_categories.py:112-152 | The two versions agree on every slice that does not both create and update and whose queued models do not repeat. |
| ImportModelCategories.MixedSliceAsWritten | products/management/commands/import_model_categories.py:116-121 | As written, a slice with a stored and a new category raises and writes nothing; corrected, it updates one and creates the other. |
| ImportModelCategories.RepeatedLinkAsWritten | products/management/commands/import_model_categories.py:137-152 | As written, a model named twice for one category is queued twice, the link insert fails, and the slice is rolled back while its counts are added. Corrected, the link is made once. |
| ImportModelCategories.RaisedSlicePassedOver | products/management/commands/import_model_categories.py:186-205 | A slice that raised changes nothing and the import goes on with the next one. |
| ImportModelCategories.ListCategoryIdPassedOver | products/management/commands/import_model_categories.py:104-107 | A slice holding an accepted record whose category id is a list is dropped whole, and the import goes on. |
| ImportModelCategories.ImportOutcome | products/management/commands/import_model_categories.py:165-213 | A list always completes unless the batch size is zero, and the closing line gives the number of records; a negative batch size gives no slice. |
| ImportModelCategories.NotAListImportsNothing | products/management/commands/import_model_categories.py:172-176 | A file that is not a list imports nothing. |
| ImportModelCategories.CategoryStore.Partition | products/management/commands/import_model_categories.py:59-109 | The second pass stops exactly when an accepted record has a list for its category id; otherwise it returns the create and update lists and the model groups of the specification. |
| ImportModelCategories.CategoryStore.SortRecord | products/management/commands/import_model_categories.py:59-109 | One record of the second pass extends the create and update lists and the groups as the specification does, or raises exactly when the record is accepted and its category id is a list. |
| ImportModelCategories.CategoryStore.Prefetch | products/management/commands/import_model_categories.py:50-56 | The prefetched models are stored models, as stored, and include every stored model the slice names. |
| ImportModelCategories.CategoryStore.UpdateCategories | products/management/commands/import_model_categories.py:125-130 | The update statements of 1000 leave the category table of the chunked specification. |
| ImportModelCategories.CategoryStore.LinkGroups | products/management/commands/import_model_categories.py:133-152 | Every category of the slice is linked to its records' models that were not linked yet, each once. |
| ImportModelCategories.CategoryStore.ProcessBatch | products/management/commands/import_model_categories.py:42-154 | The corrected batch inside its transaction: a raising slice writes nothing, and otherwise the tables and counts are those of its specification. |
| ImportModelCategories.CategoryStore.Handle | products/management/commands/import_model_categories.py:156-213 | The slice loop's tables and closing line are those of the import specification. |
| ImportModelCategories.Advance | products/management/commands/import_model_categories.py:184-205 | One slice, run or passed over, leaves the rest of the import to the slices after it. |
| ImportModelCategories.CategoryStore.RunSlice | products/management/commands/import_model_categories.py:185-205 | One pass leaves the tables and counters of the slice step: those of its transaction when it committed, unchanged when it raised. |
| ImportModelCategories.CategoryStore.SendSlice | products/management/commands/import_model_categories.py:184-205 | Running the next slice keeps the whole loop's outcome, continuing from the tables and counters it left. |
| ImportModelCategories.CategoryStore.RunSlices | products/management/commands/import_model_categories.py:184-205 | The loop over the slices leaves the tables and counters of running every slice of the file in order, a failed slice changing nothing. |

## Left out

- The cart is an abstract sequence of (product, quantity) lines whose products are in the catalogue. The cart class itself is not part of this model.
- Sending e-mails, flash-message storage, logging, redirects and templates are left out. Where a view's answer matters, it is a datatype value.
- The requester of the order views is always a signed-in user. The `LoginRequiredMixin` redirect of the create, single-product and cancellation views (orders/views.py:37, 121, 193) is not modelled, nor the login redirect an anonymous user gets from the staff status update. That view's staff test (orders/views.py:262-264) is modelled: a signed-in user who is not staff is refused.
- Whether the signal receivers are connected is a parameter. Their registration in the app config is not part of this model.
- Money is an exact rational. The 2-decimal rounding of `DecimalField`, the `max_digits` bound and the `MinValueValidator` checks are not modelled.
- In the order lifecycle, `created_at`, `updated_at` and the clock are inputs: every instant is passed in. Two orders numbered in the same second are modelled, as the unique-number refusal. The import commands' `created_at`/`updated_at` values are not modelled: their tables hold only the columns the commands take from the file.
- Transactions are sequential and all-or-nothing. Concurrent requests and last-writer-wins races are not modelled.
- The list and detail views, the admin list filters and searches, and query ordering other than the history's newest-first display are left out. They are ORM querysets.
- UserAuthViews.UrlScheme: the scheme of a redirect target follows the `urlsplit` of current Python releases (leading controls and spaces stripped, tabs and newlines removed, an ASCII letter first). The length limit some Django releases put on a redirect target is not modelled.
- `set_password`, `authenticate`, `login`, and `UserCreationForm`'s password-match check are left out. They are framework internals.
- `normalize_email` is modelled as Django defines it, with ASCII lower-casing of the domain. Unicode case folding is not modelled.
- PasswordResetForms.ResetCleanEmail: `email__iexact` is modelled with ASCII case-insensitivity, as SQLite compares. Databases that also match non-ASCII letters regardless of case are not modelled.
- `Profile.save`, which deletes an old image file, is left out because it is file I/O. The fetch and DOM part of the product admin script (the brand/model selector) is left out too.
- The import commands' JSON reading, path resolution and printing are left out. Each command takes the decoded file as a value.
- JSON values hold integers, strings, booleans, null and lists only. Floating-point numbers and objects as ids are not represented. A list id cannot be hashed: every importer raises on it where the code tests or looks it up, and the model carries that case.
- Each element of an import list is assumed to be a JSON object. An integer element would make the key test (`key in data`) raise `TypeError`, and a string element would pass it as a substring test and then fail when indexed; neither is modelled.
- ImportProducts.PriceParses: `float()` is modelled as a decimal grammar (an optional sign, digits, at most one point). Exponents, "inf", "nan" and underscores are not accepted. The price is stored as the value given, not converted to a float.
- Ids are compared as JSON values in all four importers. Django's coercion of a string id to an integer column is not modelled, nor the `ValueError` a non-numeric string id raises in a lookup on an integer column. A null id passes every importer's key test and is compared as the JSON value null, so a stored null key is found again and a second null record collides with it. Django looks a null id up as `IS NULL` and drops None from an `__in` list, so `Product.objects.get(id=None)` (import_products.py:155) finds nothing, the record is always created, and the database assigns its key; none of this is modelled.
- The unique `name` and `slug` columns of `Brand` and `Category` (products/models.py:7-8, 32-33) are not modelled. `bulk_create` does not call `save()`, so a created brand or category keeps the slug "". A brand batch creating two brands, or a brand whose name is already stored, raises and ends the import; a category slice creating two categories is dropped. The model's insert fails only on an id conflict: an id already stored, or one repeated among the new rows.
- The importers' model classes are not part of this model. `products/models.py` declares only `Brand` and `Category`, without the `brand_id` and `category_id` fields the commands filter and create by; `ProductModel`, `Product` and `ProductImage` are not in it. The model follows the commands: each table is a map keyed by the JSON id.
- The link table's unique constraint on (category, model) is assumed. It is what makes a repeated link insert fail.
- A stored `category_id` is assumed to name one category. The import never creates a second one with the same id.
- `Category.save` (slug) does not run in `bulk_create`, and `slugify` is not modelled.
- ImportModelCategories.CategoryStore.Handle and ImportModelCategories.ImportSpec run the corrected slice of the categories command, in two places. Stored categories keep their key instead of being re-keyed through `_[0]` (import_model_categories.py:121), so a slice that both creates and updates categories commits in the model, where the source drops it. The model-link insert loop queues each model once. The code as written is modelled as a specification function (`BatchSpecAsWritten`) with both failing cases; the Findings table lists them.
- OrderAdmin.ViewOrderItems: the corrected summary passes the item texts as arguments to `format_html`. The HTML escaping it then applies is not modelled; the texts appear as given.
- OrderAdmin.ViewStatusHistory: likewise, the escaping of the history notes passed as arguments is not modelled.
- ImportBrands.BatchCounts: the update count is bounded above rather than given exactly, because it depends on which ids the chunk query finds.
- ImportProducts.ImagesChunked: its own contract states only that the table grows. The full contents are stated by ImportProducts.ImagesChunkedFacts and ImportProducts.ImagesChunkedStored.

## Findings

| source | as written | input that shows it | evidently intended | confidence | as-written member | corrected member |
|---|---|---|---|---|---|---|
| orders/admin.py:66-70 | The item texts are joined into the format string itself and passed to `format_html` with no arguments. | An order with one item whose product is named "Pack {2}": the format raises instead of showing "1x Pack {2}". | The item texts are passed as arguments (or escaped), so any product name is shown. | high, not executed | OrderAdmin.ItemsAsWrittenFailsOnBrace | OrderAdmin.ViewOrderItemsShape |
| orders/admin.py:77-85 | The history notes are joined into the format string passed to `format_html` with no arguments. | One history row whose notes are "{urgent}": the summary raises. | The notes are passed as arguments, so any note is shown. | high, not executed | OrderAdmin.HistoryAsWrittenFailsOnBrace | OrderAdmin.ViewStatusHistoryShape |
| orders/forms.py:41-45 | The prefill reads `profile.shipping_address` and `profile.billing_address`, which the profile model does not define. | Any signed-in user passed as `user=`: AttributeError before the form is built. Latent: no view passes `user=` (the create view at orders/views.py:37-41 has no `get_form_kwargs`). | The profile's existing fields are read, and only the phone number is pre-filled. | high, not executed | OrderForms.PrefillAsWrittenFails | OrderForms.PrefillResult |
| products/management/commands/import_model_categories.py:121 | After inserting new categories, a stored category's key is rebuilt from `_[0]`, where `_` is its integer primary key. | A slice with a record for stored category 10 and a record for new category 11: indexing an int raises and the whole slice is dropped. | The stored key is kept as `(_, category_id)`, so the slice updates 10 and creates 11. | high, not executed | ImportModelCategories.MixedSliceAsWritten | ImportModelCategories.BatchWrites |
| products/management/commands/import_model_categories.py:137-146 | The models queued for a category keep repeats. | Two records of one slice naming stored category 10 and model 7: the link is inserted twice, the insert fails, and the slice rolls back while its counts are still added. | Each model is queued once, so the link is made. | medium, not executed | ImportModelCategories.RepeatedLinkAsWritten | ImportModelCategories.QueuedMembers |
