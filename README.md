# Hospital backend: the sale workflow, catalogue rules, permissions and account rules in Dafny

This project models the parts of the hospital management backend (a Django REST
Framework service) that hold logic, and proves properties of them:

- **Point-of-sale sales.** `SaleDetailSerializer` validates each line of a sale:
  - it resolves the line's unit price (the one sent, else the item's own);
  - it recomputes the line's subtotal.

  `SaleSerializer.create` then runs step by step:
  - it opens the sale row;
  - it saves one detail row per line (through `SaleDetail.save`, which recomputes the subtotal again);
  - it decrements each line's item and stops with "Insufficient stock" at the first line whose item would go negative;
  - only at the end does it store the total.

  `SaleListCreateView.post` forces the cashier to the requesting user.
  - The loop is modelled twice: as the method `SaleStore.Create`, and as the tail-recursive specification `CommitFrom` that the method is proved to meet.
  - `CommitFrom` is then shown equal to a closed form over independent definitions: the first short line, the written rows, the sum of subtotals, and the item saves in order.
  - The lemmas on that closed form state what a sale does to the three tables.
- **Catalogue rules.** These cover:
  - `Product.needs_reorder` and the product defaults;
  - the listing order by name;
  - SKU normalisation and the SKU field's own validators;
  - the reorder-point check and the stock-level validator;
  - the list view's category and `needs_reorder` filters;
  - the stock-only PATCH, modelled as a method on a product table.
- **Access control.** The `has_permission` predicates of the five permission classes. The ownership check converts the URL's `user_id` with Python's `int()`, modelled on ASCII text: surrounding whitespace, a sign, and digit groups joined by single underscores. The only route that uses this class, `profiles/<int:user_id>/` (accounts/urls.py:7), already converts the id to an int, so through that route the string case of the check is never reached; it is modelled because the class accepts either.
- **Accounts.** These cover:
  - the role list and its default;
  - the string form of a user;
  - the profile tables' uniqueness constraints;
  - `UserSerializer.create`'s defaults;
  - the in-place `update` (a `User` class whose attributes are a map written key by key);
  - the profile dispatch, the password-change check and the role-update choice.
- **Patients.** The two field validators of `PatientSerializer`, with today's date and the set of medical record numbers in use as parameters.

Conventions and facts the model relies on:
- Amounts are whole cents. A `DecimalField(max_digits=10, decimal_places=2)` holds values of magnitude below 10^10 cents (`Money.FitsDecimal`).
- The item columns the sale reads (`quantity`, `unit_price`) are those of inventory/migrations/0001_initial.py. inventory/models.py declares other fields (`stock_level`, `reorder_threshold`) that the sale code never uses.
- A sale line's quantity is a `PositiveIntegerField`, which admits 0, although the view's docstring asks for a positive quantity. The model follows the code.
- Two modules of the catalogue cannot be imported as written. products/serializers.py imports `ProductImage` from products/models.py, which defines no such model (nor does products/migrations/0001_initial.py). products/views.py imports that module, and also a `CategorySerializer` it does not define. The serializer and view logic is modelled as written, as it would run once those names exist.
- patients/models.py has neither a date of birth nor a medical record number, so the two patient validators cannot be reached through the serializer's `fields = '__all__'`. They are modelled as standalone functions.
- `'patient'` is not among the role codes. For any user holding a listed role, the patient branch of `get_profile` is never taken, and `IsStaffUser` reduces to "signed in".

## Model

| member | source | states |
|---|---|---|
| AccountsModels.ParseRole | accounts/models.py:9-18 | a string is accepted as a role only when it is that role's stored code |
| AccountsModels.ParseCode | accounts/models.py:9-18 | every listed role's code is accepted as that role, so the eight codes are distinct |
| AccountsModels.RoleCodes | accounts/models.py:9-19 | a string is a role code exactly when some listed role has it; "patient" is not one; the default role is "staff" and is listed |
| AccountsModels.RoleDisplay | accounts/models.py:9-23 | `get_role_display()` gives the display name of a known code and the stored value itself otherwise |
| AccountsModels.UserLabel | accounts/models.py:22-23 | a user's string form is the username followed by " (", the role's display name and ")" |
| AccountsModels.UserLabelDistinguishesRoles | accounts/models.py:9-23 | two users with the same username and different roles have different string forms |
| AccountsModels.ParseGender | accounts/models.py:34 | a gender value is accepted only when it is one of the three choices, and it maps back to that value |
| AccountsModels.GenderRoundTrip | accounts/models.py:34 | each gender choice is accepted as itself, and exactly "Male", "Female" and "Other" are accepted |
| AccountsModels.PatientProfileLabel | accounts/models.py:39-40 | a patient profile's string form is the username followed by " (Patient)" |
| AccountsModels.DoctorProfileLabel | accounts/models.py:52-53 | a doctor profile's string form is the username followed by " (Doctor)" |
| AccountsModels.DoctorProfileLabelIsUserLabel | accounts/models.py:52-53 | a doctor profile reads exactly as its user, with role doctor, does |
| AccountsModels.PatientProfileLabelUnlikeUsers | accounts/models.py:39-40 | a patient profile never reads as its user does, whatever that user's listed role, since "Patient" is no role's display name |
| AccountsModels.InsertDoctorProfile | accounts/models.py:48-50 | a doctor profile is refused exactly when its user already has one or its licence number is taken; otherwise it is appended, and one profile per user and unique licence numbers are kept |
| AccountsModels.InsertPatientProfile | accounts/models.py:32 | a patient profile is refused exactly when its user already has one; otherwise it is appended and one profile per user is kept |
| AccountsSerializers.CreateUserArgs | accounts/serializers.py:26-34 | `create` passes username and password through; each of email, role, phone number, first name and last name is the sent value when present, else "" (role: "staff") |
| AccountsSerializers.CreatedRoleIsListed | accounts/serializers.py:26-34 | a user created without a role, or with an accepted role, holds a listed role code, and the default is the model's default role |
| AccountsSerializers.SplitAtLast | accounts/serializers.py:26-28 | an address splits at its last "@" exactly when it holds one: the parts rejoin to the address and the domain holds no "@" |
| AccountsSerializers.NormalizeEmail | accounts/serializers.py:26-28 | `normalize_email` strips the address and lower-cases the part after the last "@"; an address without "@" is stored as sent |
| AccountsSerializers.NormalizeEmailIdempotent | accounts/serializers.py:26-28 | normalising an address twice gives what normalising it once gives |
| AccountsSerializers.NormalizeEmailParts | accounts/serializers.py:26-28 | an address with no surrounding whitespace keeps its local part exactly and gets its domain lower-cased |
| AccountsSerializers.User.constructor | accounts/serializers.py:26-34 | `create_user` stores the plain attributes, the e-mail address normalised, and the hashed password, never the password as an attribute |
| AccountsSerializers.User.SetPassword | accounts/serializers.py:48-49 | `set_password` changes the credential and nothing else |
| AccountsSerializers.User.Update | accounts/serializers.py:41-52 | every key of the data except the password is written onto the user; absent fields keep their values; the password changes, through `set_password`, only when sent and non-empty; it never becomes a plain attribute |
| AccountsSerializers.User.Representation | accounts/serializers.py:16-18 | the output holds every attribute except the write-only password |
| AccountsSerializers.GetProfile | accounts/serializers.py:87-101 | profile data is returned exactly for role "patient" with a patient profile, or role "doctor" with a doctor profile, and it is that profile's data; otherwise None |
| AccountsSerializers.ListedRolesNeverGetPatientData | accounts/serializers.py:91-101 | for every listed role, profile data is returned only to a doctor with a doctor profile, and it is doctor data |
| AccountsSerializers.ValidatePasswordChange | accounts/serializers.py:112-118 | a password change is refused exactly when the new password and its confirmation differ, and is passed through unchanged otherwise |
| AccountsSerializers.ValidateRoleUpdate | accounts/serializers.py:120-125 | a role update is accepted exactly for the listed role codes ("patient" refused), as the role with that code |
| PatientsSerializers.AfterIsStrictOrder | patients/serializers.py:47 | the date comparison is irreflexive, asymmetric and transitive |
| PatientsSerializers.ValidateDateOfBirth | patients/serializers.py:46-49 | a date of birth is refused exactly when it is after today, and returned unchanged otherwise |
| PatientsSerializers.TodayAccepted | patients/serializers.py:47-49 | today and any earlier date are accepted as birth dates |
| PatientsSerializers.ValidateMedicalRecordNumber | patients/serializers.py:64-66 | a record number is refused exactly on create when it is already in use; on update never; it is returned unchanged |
| Permissions.IsAdminUser | permissions/permissions.py:43-44 | a signed-in user with role "admin"; what it admits is stated by `Permissions.AdminPassesAllAnonymousNone` and `Permissions.PermissionHierarchy` |
| Permissions.IsAdminOrOwner | permissions/permissions.py:52-67 | the ownership check; its cases are stated by `Permissions.AdminOrOwnerAuthentication`, `Permissions.AdminOrOwnerForNonAdmin`, `Permissions.OwnerAdmitted` and `Permissions.OtherUserRefused` |
| Permissions.IsDoctorOrAdmin | permissions/permissions.py:74-76 | a signed-in doctor or admin; stated by `Permissions.StaffForEveryListedRole` and `Permissions.PermissionHierarchy` |
| Permissions.IsAccountantOrAdmin | permissions/permissions.py:83-85 | a signed-in accountant or admin; stated by `Permissions.StaffForEveryListedRole` and `Permissions.PermissionHierarchy` |
| Permissions.IsStaffUser | permissions/permissions.py:92-93 | a signed-in user whose role is not "patient"; stated by `Permissions.StaffForEveryListedRole` |
| Permissions.AdminOrOwnerAuthentication | permissions/permissions.py:52-59 | a missing or anonymous user is refused and a signed-in admin is admitted, whatever the URL holds |
| Permissions.AdminOrOwnerForNonAdmin | permissions/permissions.py:62-67 | a signed-in non-admin is admitted exactly when `user_id` converts with `int()` to their own id; a missing `user_id` refuses |
| Permissions.OwnerAdmitted | permissions/permissions.py:62-67 | the owner is admitted whether the id arrives as an int or as its decimal string |
| Permissions.OtherUserRefused | permissions/permissions.py:62-67 | a non-admin naming another user's id is refused, as an int or as a string |
| Permissions.AdminPassesAllAnonymousNone | permissions/permissions.py:43-93 | a signed-in admin passes all five checks; an anonymous user passes none |
| Permissions.PermissionHierarchy | permissions/permissions.py:43-93 | the admin check implies every other check, and the doctor and accountant checks imply the staff check |
| Permissions.StaffForEveryListedRole | permissions/permissions.py:74-93 | every listed role passes the staff check; the doctor check admits exactly doctors and admins, the accountant check exactly accountants and admins |
| PyText.ParseInt | permissions/permissions.py:64 | `int()` of a string succeeds only when the string holds a digit |
| PyText.IntToStringRoundTrip | permissions/permissions.py:62-65 | `int(str(n)) == n` for every integer, so a user id survives the URL's string form |
| PyText.UpperIdempotent | products/serializers.py:86 | an upper-cased string has no lower-case letter, and upper-casing it again changes nothing |
| ProductsModels.NewProductNeedsReorder | products/models.py:30-37 | a product created with the defaults has stock 0 and reorder point 10, is valid, and already needs reordering |
| ProductsModels.NeedsReorder | products/models.py:48-57 | stock at or below the reorder point; stated by `ProductsModels.NeedsReorderThreshold` |
| ProductsModels.NeedsReorderThreshold | products/models.py:48-57 | `needs_reorder` holds at equality, fails one above, and stays set when the stock falls |
| ProductsModels.NameLeTotalOrder | products/models.py:42-43 | the name order used for listings is reflexive, total and transitive |
| ProductsSerializers.ValidateSku | products/serializers.py:73-91 | a SKU is refused exactly when it has fewer than 4 characters; an accepted SKU is the upper-cased input and has no lower-case letter |
| ProductsSerializers.ValidateSkuIdempotent | products/serializers.py:86-91 | validating an accepted SKU again accepts it unchanged |
| ProductsSerializers.BuiltinSkuErrors | products/models.py:24 | the SKU field's own validators report the uniqueness message exactly when the value is in use, the length message exactly when it exceeds 50 characters, the null-character message exactly when it holds one, and nothing exactly when all pass |
| ProductsSerializers.ValidateSkuField | products/models.py:24 | the SKU field strips whitespace and refuses a blank value alone; otherwise it reports every failing check among in use (as stripped, before upper-casing), over 50 characters and null character, and only when none fails applies `validate_sku`; refused exactly when one of these fails |
| ProductsSerializers.SkuCaseDuplicateAccepted | products/serializers.py:86 | "abcd" is accepted as "ABCD" while "ABCD" is already in use |
| ProductsSerializers.ValidateSkuFieldNormalised | products/serializers.py:73-91 | with uniqueness checked on the upper-cased SKU (and the same length and null-character checks), an accepted SKU is never already in use |
| ProductsSerializers.SkuCaseDuplicateRefused | products/serializers.py:86 | the normalised check refuses "abcd" while "ABCD" is in use |
| ProductsSerializers.ValidateProduct | products/serializers.py:106-110 | refused exactly when both the reorder point and the stock level are sent and the reorder point is the larger; equality passes; data passes unchanged |
| ProductsSerializers.AcceptedProductReordersOnlyAtEquality | products/serializers.py:106-110 | a product whose two values passed the check together needs reordering only when they are equal |
| ProductsSerializers.DefaultsBypassReorderCheck | products/serializers.py:106 | a create that sends neither value is not checked, while sending the default values themselves is refused |
| ProductsSerializers.StockLevelField | products/serializers.py:124-153 | the stock-only serializer refuses a level below 0 or above 2147483647 with the field's own messages, before `validate_stock_level`; a level within them passes unchanged, with the warning exactly when the product would then need reordering |
| ProductsSerializers.ValidateStockLevel | products/serializers.py:144-153 | a negative level is refused; any other passes unchanged, with the warning exactly when the product would then need reordering |
| ProductsViews.Keep | products/views.py:46-48 | the filtered list holds exactly the products of the input that pass the test, and is no longer |
| ProductsViews.KeepPreservesOrder | products/views.py:44-48 | filtering keeps the relative order of the products it keeps |
| ProductsViews.KeepPreservesNameOrder | products/views.py:35-48 | a list sorted by name stays sorted by name after filtering |
| ProductsViews.ReorderPartition | products/views.py:44-48 | the "needs reorder" and "does not need reorder" filters split a list into two parts whose union, as a multiset, is the list |
| ProductsViews.CategoryFilter | products/views.py:38-40 | the category parameter; stated by `ProductsViews.ListProductsContents` |
| ProductsViews.ReorderFilter | products/views.py:43-48 | the `needs_reorder` parameter; stated by `ProductsViews.ReorderTrueFalsePartition` and `ProductsViews.OtherReorderValuesIgnored` |
| ProductsViews.ListProducts | products/views.py:35-48 | the list view's filtering; stated by `ProductsViews.ListProductsContents` and `ProductsViews.ListProductsSorted` |
| ProductsViews.ListProductsContents | products/views.py:35-48 | the list fails exactly for a non-empty category that `int()` rejects; otherwise it holds exactly the products that pass both parameters, in their original order |
| ProductsViews.ListProductsSorted | products/views.py:35-48 | the filtered list keeps the name order of the product table |
| ProductsViews.ReorderTrueFalsePartition | products/views.py:43-48 | "true" and "false", in any letter case, select the products that need and do not need reordering, and together partition the category-filtered list |
| ProductsViews.OtherReorderValuesIgnored | products/views.py:43-48 | any `needs_reorder` value other than "true" or "false" filters nothing |
| ProductsViews.StockPatched | products/views.py:188-190 | the product as the partial stock update saves it; stated by `ProductsViews.StockPatchTouchesOnlyStock` |
| ProductsViews.StockPatchTouchesOnlyStock | products/views.py:187-192 | the stock PATCH changes only the stock level and the update time, and a valid product stays valid |
| ProductsViews.ProductTable.PatchStock | products/views.py:176-196 | an unknown product gives 404 and a level below 0 or above 2147483647 is refused, both leaving the table unchanged; otherwise the product is saved with the new level and returned |
| PosModels.SavedRow | pos/models.py:30-35 | a saved detail row's subtotal is quantity times unit price, and no other field changed |
| PosModels.SaveCanOverflowSubtotal | pos/models.py:27-34 | a row whose price and subtotal fit their DecimalField(10, 2) columns can leave that range once `save` multiplies quantity by price |
| PosModels.SavedStorable | pos/models.py:27-34 | a saved row fits its columns exactly when its price and the product of quantity and price do |
| PosModels.SaveIdempotent | pos/models.py:34 | saving a detail row twice stores the same row as saving it once |
| PosModels.SaveIgnoresPriorSubtotal | pos/models.py:34 | the subtotal a row held before its save has no effect on what is stored |
| PosSerializers.DetailErrors | pos/serializers.py:76-82 | a line has an error for an unknown item exactly when its item does not exist, one for the quantity exactly when it is negative, and one for the price exactly when a sent price does not fit 10 digits |
| PosSerializers.ResolvedPrice | pos/serializers.py:92 | the unit price is the one sent when a price is sent, and the item's own otherwise |
| PosSerializers.ValidateDetail | pos/serializers.py:84-97 | a line is refused with its field errors exactly when it has any; otherwise it holds the item's current row, the quantity, the sent price or else the item's price, and quantity times that price as subtotal |
| PosSerializers.AcceptedPriceStorable | pos/serializers.py:77-92 | an accepted line for an item the table can hold has a non-negative quantity and a unit price that fits the detail row's price column |
| PosSerializers.ValidateDetails | pos/serializers.py:103 | the details list is accepted exactly when every line is, giving the validated lines in order; otherwise one error entry per line, empty for the lines that passed |
| PosSerializers.ValidateSale | pos/serializers.py:99-108 | a sale request is accepted exactly when its cashier, if sent, exists and its details are present and valid; the errors of both fields are reported together |
| PosSerializers.CommitFrom | pos/serializers.py:118-136 | the loop never touches the sale table, and stops, if at all, at a line whose item instance cannot cover it |
| PosSerializers.CreateSpec | pos/serializers.py:110-140 | `create` appends exactly one sale row, keeping the earlier ones, dated now and with the cashier, whose total is set exactly when the sale is created; a created sale is that new row |
| PosSerializers.PostSpec | pos/views.py:58-62 | the POST answers 401 exactly without a user and 400 exactly when validation fails, with the validation errors, changing nothing in both cases; otherwise it does what `create` does and answers 201 exactly when `create` succeeds |
| PosSerializers.SaleStore.SaveDetail | pos/models.py:30-35 | `SaleDetail.objects.create` appends the row with its recomputed subtotal and changes nothing else |
| PosSerializers.SaleStore.Create | pos/serializers.py:110-140 | the step-by-step `create` leaves the tables, and returns the outcome, that `CreateSpec` gives |
| PosSerializers.SaleStore.Post | pos/views.py:58-62 | the POST leaves the tables, and answers, as `PostSpec` gives |
| PosProperties.FirstShortfall | pos/serializers.py:133-135 | the failing line is the first line whose own item instance holds less than its quantity; when none is found, every line is covered |
| PosProperties.Rows | pos/serializers.py:125-131 | one saved detail row per line, in line order, each linked to the sale |
| PosProperties.CommitFromClosedForm | pos/serializers.py:118-136 | the loop from any line on writes the rows up to and including the first short line, saves the items of the lines before it, adds up the subtotals of the rows written, and reports that line |
| PosProperties.CreateEffects | pos/serializers.py:110-140 | `create` appends a sale row with the cashier and date, with the sum of the subtotals as total only when no line fell short; it fails exactly at the first shortfall, naming that line's item |
| PosProperties.EmptySaleTotalsZero | pos/serializers.py:116-138 | a sale with no lines is created with total 0 and changes no item |
| PosProperties.SuccessfulCreate | pos/serializers.py:114-140 | when no line falls short, the sale is created with the sum of the subtotals as total, one row per line in order, and every line's item saved in order |
| PosProperties.FailedCreateKeepsEarlierWork | pos/serializers.py:115-135 | when line j fails, the sale row stays with no total, the rows of lines 0 to j stay (line j's included), and the item saves of the earlier lines stay |
| PosProperties.ApplySavesUntouched | pos/serializers.py:133-136 | an item no saved line names keeps its row |
| PosProperties.ApplySavesLastWins | pos/serializers.py:133-136 | an item named by saved lines holds the decremented instance of the last line naming it |
| PosProperties.ApplySavesKeys | pos/serializers.py:133-136 | saving lines for existing items adds and removes no item |
| PosProperties.ApplySavesNonNegative | pos/serializers.py:133-136 | saving lines that do not fall short never stores a negative quantity |
| PosProperties.UnreferencedItemsUnchanged | pos/serializers.py:118-136 | items that no line names are left as they were, whether the sale succeeds or fails |
| PosProperties.SingleLineItemDecrements | pos/serializers.py:133-136 | after a successful sale, an item named by exactly one line has lost exactly that line's quantity |
| PosProperties.RepeatedItemLastLineWins | pos/serializers.py:118-136 | after a successful sale, an item named by several lines holds its starting quantity less the last such line's quantity alone |
| PosProperties.StockNeverNegative | pos/serializers.py:133-136 | no negative item quantity is ever stored, even when a line fails |
| PosProperties.CreatePreservesWellFormed | pos/serializers.py:110-140 | on validated lines `create` keeps quantities non-negative and every detail row pointing at an existing sale and item, with subtotal equal to quantity times unit price |
| PosProperties.ValidatedTotal | pos/serializers.py:92-96 | the subtotals of validated lines add up to the sum of each requested quantity times its resolved price |
| PosProperties.ClientSubtotalIgnored | pos/serializers.py:94-96 | a subtotal sent with a line changes nothing |
| PosProperties.RefusedPostChangesNothing | pos/views.py:58-62 | an unauthenticated or invalid request changes no table |
| PosProperties.PostSetsCashierAndDate | pos/views.py:60 | an accepted request always opens a sale whose cashier is the requesting user, whatever cashier was sent, dated by the server's clock |
| PosProperties.PostIgnoresReadOnlyFields | pos/serializers.py:107-108 | the `date` and `total_amount` sent with a request have no effect |
| PosProperties.PostCreatedTotal | pos/serializers.py:114-140 | a created sale's total is the sum of the requested quantities times their resolved prices, and exactly one row per requested line was written |
| PosProperties.PostPreservesWellFormed | pos/views.py:58-62 | the sale POST keeps the tables well formed, whatever it answers |
| PosExamples.SingleLineSale | pos/serializers.py:84-140 | 4 units at 2.00 from a stock of 10: created with total 8.00, one row of 8.00, 6 left; the sent cashier, date, total and subtotal are ignored |
| PosExamples.LooseLineBounds | pos/serializers.py:77-96 | a sent unit price replaces the item's, even a negative one, and a quantity of 0 is accepted |
| PosExamples.RepeatedItemOversells | pos/serializers.py:118-136 | two lines of 6 for an item with 10 in stock: 12 units are sold and the stock is saved as 4 |
| PosExamples.FailureLeavesPartialSale | pos/serializers.py:115-135 | a second line that cannot be covered answers 400 but leaves the sale row without a total, both detail rows and the first item's decrement |
| PosCorrected.CreateFromCurrentStock | pos/serializers.py:110-140 | the corrected `create` appends one sale row dated now with the cashier, with a total exactly when the sale is created, and adds or removes no item |
| PosCorrected.CommitCurrent | pos/serializers.py:133-136 | reading the current stock for each line, the loop keeps the item and sale tables' keys and stops, if at all, at a real line |
| PosCorrected.CommitCurrentAccounting | pos/serializers.py:133-136 | reading the current stock for each line, a completed loop leaves each item with its stock less the whole demand on it, never negative |
| PosCorrected.NoOversell | pos/serializers.py:133-136 | reading the current stock for each line, a created sale never asks more of an item than it had |
| PosCorrected.CommitCurrentCovered | pos/serializers.py:133-136 | reading the current stock for each line, the loop completes whenever every item holds the remaining lines' whole demand on it |
| PosCorrected.CreatedExactlyWhenStockCovers | pos/serializers.py:118-136 | reading the current stock for each line, a sale is created exactly when every item holds at least the sale's whole demand on it |
| PosCorrected.RepeatedItemRefused | pos/serializers.py:133-136 | reading the current stock for each line, two lines of 6 for an item with 10 in stock are refused |

## Left out

- Concurrency. Two simultaneous sales can oversell one item, because nothing locks the item rows. The model is sequential.
- Transactions. No transaction appears in the sale code, and the model shows the partial writes of a failed sale. A project-wide `ATOMIC_REQUESTS` setting would roll them back; the settings module is not part of this model.
- Storage overflow. A line subtotal or a sale total can exceed 10 digits (`PosModels.SaveCanOverflowSubtotal`). A backend that enforces the column width would then refuse the write; SQLite would store it. Amounts are unbounded integers here.
- Input shapes the model does not represent:
  - a JSON value of the wrong type;
  - a decimal with more than 2 places (amounts are whole cents);
  - a `details` value that is not a list;
  - a detail line without an `item` or a `quantity` key, which DRF refuses with "This field is required." (`PosSerializers.DetailRequest` always holds both).
  A missing `details` key and unknown item or cashier ids are modelled.
- PosSerializers.ValidateDetail: the quantity's upper bound (the backend's maximum for a PositiveIntegerField, which DRF turns into `max_value`) is not modelled. Only the lower bound of 0 is.
- PosSerializers.DetailErrors: for the same reason its quantity error is stated as "exactly when negative"; a quantity above the backend's maximum is accepted here but refused by the service.
- ProductsSerializers.StockLevelField: the upper bound is 2147483647, the range Django gives a PositiveIntegerField on backends with 32-bit integer columns; a backend with a wider range raises it accordingly.
- The item instance of each line is a value copy. That is faithful, since each line's related field fetches its own instance.
- Sale and item deletion: the cascade of sale details and the SET_NULL of a deleted cashier.
- The sale list and sale detail GET views, and the string form of a sale. They only read and format.
- ProductsSerializers.ValidateStockLevel: its own refusal of a negative level is never reached through the serializer, since the field's minimum of 0 fires first (`ProductsSerializers.StockLevelField`). The warning is a `print` to the console; only whether it is printed is modelled.
- Product images: `get_image`, the `default_image` ownership check, and `category_name`. They depend on request context and ORM relations.
- The other product views (create, retrieve, update, delete) and the CRUD views of the other apps. They are HTTP-to-ORM plumbing.
- Authentication, tokens and password hashing. `set_password` is an opaque setter recording which raw password the hash came from.
- AccountsSerializers.User.constructor: the NFKC normalisation `create_user` applies to the username is not modelled; it changes only non-ASCII text, which is out of scope here.
- The built-in validators of DRF's CharField (whitespace trimming, maximum length, null characters) are modelled for the SKU field only, in `ProductsSerializers.ValidateSkuField`; for the other text fields of the serializers they are Django's and are not restated.
- ProductsModels.NameLe: orders names by character code. `ordering = ['name']` follows the database's collation, which may ignore case or follow a locale.
- UserSerializer's model-level field checks (unique username, e-mail format, role choices on create and update). They are Django's and are not restated here.
- PyText.ParseInt: its own contract only says that an accepted string holds a digit. What it returns is pinned down by `PyText.IntToStringRoundTrip`, which covers the strings the ownership check meets.
- Text outside ASCII. `lower()`, `upper()` and `int()` are modelled on ASCII letters, digits and whitespace. Python's `int()` also accepts non-ASCII digits and Unicode spaces; those inputs are out of scope.
- Dates and clocks. `date.today()` and the `auto_now` and `auto_now_add` timestamps are parameters. Dates are compared as (year, month, day) without a calendar validity check.

## Findings

| source | as written | input that shows it | evidently intended | confidence | as-written member | corrected member |
|---|---|---|---|---|---|---|
| products/serializers.py:73-91 | the SKU field's uniqueness validator checks the stripped value before `validate_sku` upper-cases it | a new product with SKU "abcd" while another has "ABCD": validation accepts it as "ABCD", and the save then breaks the column's unique constraint | uniqueness checked on the upper-cased SKU, so the request is refused with a validation error | medium: on a database whose collation ignores case, the validator's lookup already matches; not executed | ProductsSerializers.ValidateSkuField, ProductsSerializers.SkuCaseDuplicateAccepted | ProductsSerializers.ValidateSkuFieldNormalised, ProductsSerializers.SkuCaseDuplicateRefused |
| pos/serializers.py:118-136 | each line decrements the quantity of the item instance its related field fetched during validation, so lines naming the same item all start from the same stock and the last save wins | two lines of 6 units of one item with 10 in stock: the sale of 12 units is created and the stock saved as 4 | each line decrements the stock left by the earlier lines, so the second line raises "Insufficient stock" | high; not executed | PosExamples.RepeatedItemOversells, PosProperties.RepeatedItemLastLineWins | PosCorrected.CreateFromCurrentStock, PosCorrected.NoOversell, PosCorrected.CreatedExactlyWhenStockCovers, PosCorrected.RepeatedItemRefused |
