# Point-of-sale bookkeeping, modelled in Dafny

This project models the money, stock and status bookkeeping of a point-of-sale system
with a Django backend and a React front end, and proves properties of that model.

The model follows the program's structure. There is one Dafny module per source file.

- **Sales.** `SaleItem.save` works out the line amounts. `Sale.calculate_totals` and
  `Sale.update_payment_status` keep the sale's totals and its unpaid/partial/paid
  classification. The sale serializers validate items, create a sale (which lowers stock)
  and update it. The sale views filter the list, cancel a sale (which restores stock) and
  complete it.
- **Payments.**
  - An initiation request is validated field by field: the sale's key, the method's name,
    a decimal amount with two places, and the optional phone and account numbers. Then it
    is validated as a whole: sale not paid, amount within the balance, phone for mobile
    money. A valid request becomes a pending payment that is routed by method. A cash
    payment settles at once.
  - M-Pesa, Airtel Money and the card gateway each map their result codes onto the
    payment's status and credit the sale. Their callbacks and verifications do the same.
  - A refund is validated and approved.
- **Inventory.**
  - A stock movement's quantity takes the sign of its movement type. The movement
    records stock before and after, and a low-stock alert is raised when the product
    runs low.
  - An alert is resolved or ignored.
  - A stock count is opened, items are added to it, and completing it sets each
    product's stock to the counted quantity, logging an adjustment for each difference.
- **Products.** The low-stock test and the price with tax. The barcode must be unique.
  Stock is updated by add or subtract, and subtract is guarded.
- **Reports.** A period maps to a date range. The sales, inventory and profit summaries
  are filtered sums; the average and the margin are guarded against zero.
- **Users and access.**
  - The admin and cashier permissions, and the login and logout tokens.
  - The login validation.
  - The public user representation, which hides the password.
  - The role-filtered sidebar.
  - The users page: search parameters, the role badge, the name shown, and the guard
    against deleting one's own account. The delete button is on every row but the
    current user's.
  - The user form: loading, the payload, the error message and field changes.
- **Checkout in the browser.**
  - The cart: add, change quantity, remove, clear, and the derived total.
  - The payment dialog's per-method checks and what it reports back.
  - The API client's error-message extraction, its 401 handling and its auth header.

Representations:

- Money is a whole number of cents. Tax rates are whole hundredths of a percent. Amounts
  that Django stores with two decimals are rounded half to even.
- Database rows that the code updates in place are Dafny classes: sales, products,
  payments, refunds, alerts, stock counts and their items. Tables are sequences of them.
- JSON bodies are a `Json` datatype, with JavaScript truthiness and member lookup defined
  on it.
- Gateway replies, the clock, UUID suffixes and the reply to each front-end request are
  parameters.

A pending mobile payment gets one confirmation, fifteen seconds after it was initiated.
As written, that confirmation always fails without sending anything (see "Findings").

Five defects of the code as written are kept in the model beside a corrected version;
see "Findings".

## Model

| member | source | states |
|---|---|---|
| SalesModels.ComputeLine | backend/apps/sales/models.py:97-101 | the line subtotal is unit price times quantity; the stored tax and total are within half a cent of subtotal × rate / 100 and of subtotal plus that exact tax, and the total is within one cent of subtotal plus stored tax |
| SalesModels.LineTotalIsSum | backend/apps/sales/models.py:99-101 | the stored total equals subtotal plus stored tax unless the exact tax ends in half a cent; a zero rate gives zero tax and total = subtotal |
| SalesModels.SaleItem.constructor | backend/apps/sales/models.py:72-86 | a created line keeps the given snapshot fields and carries the amounts `save` computes |
| SalesModels.PaymentStatusFor | backend/apps/sales/models.py:61-68 | paid iff the amount paid reaches the total; partial iff something but not all is paid; unpaid otherwise; never refunded |
| SalesModels.PaymentStatusMonotone | backend/apps/sales/models.py:61-68 | paying more never moves a sale down the order unpaid < partial < paid |
| SalesModels.NothingDueIsPaid | backend/apps/sales/models.py:63-64 | a sale whose total is zero or less is paid with nothing paid |
| SalesModels.Sale.constructor | backend/apps/sales/models.py:21-39 | a new sale has zero amounts, status pending, payment status unpaid, no completion time and no items |
| SalesModels.Sale.CalculateTotals | backend/apps/sales/models.py:53-59 | subtotal and tax become the sums over the lines and total = subtotal + tax − discount; status, payments and items are untouched |
| SalesModels.Sale.UpdatePaymentStatus | backend/apps/sales/models.py:61-69 | the payment status becomes the classification of amount paid against total; nothing else changes |
| SalesSerializers.ItemFieldErrors | backend/apps/sales/serializers.py:30-40 | an item has no field errors iff its product key names an existing active product and its quantity is positive |
| SalesSerializers.ValidateItem | backend/apps/sales/serializers.py:30-52 | an item is accepted iff it names an existing active product and 0 < quantity ≤ that product's stock; an accepted item keeps its product and quantity |
| SalesSerializers.ItemErrorsOf | backend/apps/sales/serializers.py:77 | one error list per posted item |
| SalesSerializers.LinesOf | backend/apps/sales/serializers.py:77 | the validated lines are the items' validations, in order |
| SalesSerializers.ValidateItems | backend/apps/sales/serializers.py:77-90 | an empty list is refused as having no item; the list passes iff every item passes; then each line stands for its item |
| SalesSerializers.ItemsCheckedSeparately | backend/apps/sales/serializers.py:42-50 | two items for one product pass when each is within stock, even when together they exceed it |
| SalesSerializers.DetailsOfLines | backend/apps/sales/serializers.py:113-122 | each line gets the name, barcode, price, cost and tax of its product, in line order |
| SalesSerializers.SellLine | backend/apps/sales/serializers.py:108-126 | one loop iteration: a fresh sale line that snapshots the product, and that product's stock lowered by the quantity, its details unchanged |
| SalesSerializers.SnapshotSums | backend/apps/sales/models.py:53-58 | the sums over the sale lines equal the sums of the line amounts computed from the copied details |
| SalesSerializers.SumQuantityStep | backend/apps/sales/serializers.py:108-126 | one more line adds its quantity to its own product's total only |
| SalesSerializers.SellLines | backend/apps/sales/serializers.py:108-126 | one sale line per item with the product snapshot; each product's stock is lowered by its total quantity over the items |
| SalesSerializers.SettleIfPaid | backend/apps/sales/serializers.py:134-139 | a sale whose payment status is paid is completed at that time with change = amount paid − total; otherwise nothing changes |
| SalesSerializers.FinishSale | backend/apps/sales/serializers.py:128-139 | the totals are the sums over the sale's lines less the discount, the payment status classifies the amount paid against the total, and only a paid sale is completed, with its change |
| SalesSerializers.CreateSale | backend/apps/sales/serializers.py:92-141 | the sale number, the snapshot lines, stock lowered per product by its total quantity, totals from the copied details, the classified payment status, and completion with change exactly when paid |
| SalesSerializers.StockAfterCreateAsWritten | backend/apps/sales/serializers.py:108-126 | as written, each item's product is its own object: every product keeps an entry, and each line saves its own stock minus its quantity |
| SalesSerializers.DuplicateItemsLoseDecrement | backend/apps/sales/serializers.py:108-126 | items 2 and 3 of one product with stock 10 leave stock 7 as written, where 5 is intended |
| SalesSerializers.AsWrittenAgreesWithoutDuplicates | backend/apps/sales/serializers.py:108-126 | when no product appears twice, the code as written lowers each product by exactly its quantity |
| SalesSerializers.UpdateSale | backend/apps/sales/serializers.py:151-165 | the given fields are set; a given amount recomputes the payment status and sets change to the overpayment, never negative; a pending sale that is then paid is completed; lines, subtotal, tax and total are unchanged |
| SalesViews.ListSales | backend/apps/sales/views.py:28-54 | the list keeps, in stored order, exactly the sales that pass every filter: visible to the user, the exact-match fields, the inclusive date bounds and the search |
| SalesViews.ListSalesKeepsOrder | backend/apps/sales/views.py:28-54 | the listing of two runs of sales is the listing of the first followed by that of the second, and a single sale is listed exactly when it passes, so the listing is an order-preserving filter of the table |
| SalesViews.CashierSeesOwnSales | backend/apps/sales/views.py:33-34 | whatever the query, every sale listed for a cashier was rung up by that cashier |
| SalesViews.AdminSeesAll | backend/apps/sales/views.py:28-54 | an admin with no filter gets every sale, in order |
| SalesViews.BoundsInclusive | backend/apps/sales/views.py:40-43 | a sale made exactly at both the start and the end bound is listed |
| SalesViews.SearchIgnoresCase | backend/apps/sales/views.py:46-52 | searching for a sale's number in lower case finds the sale |
| SalesViews.RestoreStock | backend/apps/sales/views.py:74-76 | each product named by the lines gets back its total quantity over the lines; nothing else about the products changes |
| SalesViews.Cancel | backend/apps/sales/views.py:57-83 | a cancelled sale and a paid sale are refused with their messages and nothing changes; otherwise the stock is restored and the status becomes cancelled, the rest of the sale unchanged |
| SalesViews.Complete | backend/apps/sales/views.py:86-106 | a completed sale and a sale not fully paid are refused with their messages; otherwise, a cancelled sale included, the status becomes completed and nothing else changes |
| SalesViews.SameQuantities | backend/apps/sales/serializers.py:108-126 | the lines of a created sale carry each product's quantities as the posted lines did |
| SalesViews.SameProducts | backend/apps/sales/serializers.py:108-126 | the lines of a created sale name the same products as the posted lines |
| SalesViews.CreateThenCancel | backend/apps/sales/views.py:57-83 | a sale created and then cancelled: the cancel succeeds iff the sale was not paid at creation, and then every product's stock is back where it was |
| ProductsModels.Product.constructor | backend/apps/products/models.py:20-35 | a product row holds the given identity, prices, tax, stock, threshold and active flag |
| ProductsModels.Product.WithDefaults | backend/apps/products/models.py:29-30 | a product created without stock or threshold gets 0 and 10, and is low on stock from the start |
| ProductsModels.Product.TotalPrice | backend/apps/products/models.py:52-56 | the rendered total price is the exact sum price + price × tax / 100 quantised once to two places: within half a cent of it, and an exact half cent goes to the even cent |
| ProductsModels.TotalPriceSplits | backend/apps/products/models.py:52-56 | unless the exact tax ends in exactly half a cent, the total price is the price plus the separately rounded tax |
| SalesModels.TotalPriceIsOneUnitLine | backend/apps/products/models.py:52-56 | the rendered total price equals the stored total of a one-unit sale line at the product's price and tax |
| ProductsModels.FindProduct | backend/apps/products/views.py:56 | the product with the primary key when one exists; none only when no product has it |
| ProductsModels.TotalPriceAtLeastPrice | backend/apps/products/models.py:52-56 | with a non-negative price and tax the total price is at least the price, and equals it without tax |
| ProductsSerializers.ValidateBarcode | backend/apps/products/serializers.py:36-45 | on create a barcode is accepted iff no product has it; on update iff no other product has it; an accepted barcode is returned unchanged |
| ProductsSerializers.CustomCheckNeverFires | backend/apps/products/serializers.py:36-45 | the column's uniqueness validator and `validate_barcode` accept the same barcodes, so a duplicate is always reported with the column's message |
| ProductsSerializers.KeepOwnBarcode | backend/apps/products/serializers.py:39-41 | with unique barcodes, saving a product with its own barcode is accepted |
| ProductsSerializers.DuplicateRejectedOnCreate | backend/apps/products/serializers.py:42-44 | on create, a barcode any product already has is rejected |
| ProductsViews.ByBarcode | backend/apps/products/views.py:33-44 | an active product with the barcode when one exists; the 404 only when every product with that barcode is inactive |
| ProductsViews.LowStock | backend/apps/products/views.py:46-51 | exactly the products that are low on stock, active or not |
| ProductsViews.UpdateStock | backend/apps/products/views.py:53-79 | the stock takes the accepted update and is otherwise left as it was |
| ProductsViews.AddAddsQuantity | backend/apps/products/views.py:57-63 | 'add', given or defaulted, raises the stock by the quantity whatever its sign |
| ProductsViews.SubtractGuarded | backend/apps/products/views.py:64-70 | 'subtract' of more than the stock is refused with 'Insufficient stock'; otherwise the stock drops by the quantity and never below zero from a non-negative stock |
| ProductsViews.UnknownOperationKeepsStock | backend/apps/products/views.py:60-72 | any other operation that is accepted leaves the stock as it was |
| ProductsViews.InvalidQuantityText | backend/apps/products/views.py:61-79 | a quantity text that is not an integer gives 'Invalid quantity'; a numeric text is converted |
| InventoryModels.ParseMovementType | backend/apps/inventory/models.py:8-18 | a movement type is accepted only for one of the six stored names, and stands for that name |
| InventoryModels.MovementNameRoundTrip | backend/apps/inventory/models.py:8-18 | every movement type's stored name parses back to that type |
| InventoryModels.StockAlert.constructor | backend/apps/inventory/models.py:50-62 | a new alert records the product, stock and threshold, and is active and unresolved |
| InventoryModels.StockCountItem.constructor | backend/apps/inventory/models.py:115-137 | a new item holds the product and both quantities, and is saved with its variance |
| InventoryModels.StockCountItem.Save | backend/apps/inventory/models.py:134-137 | after save, variance = physical − system, zero exactly when they agree; the quantities and notes are unchanged |
| InventoryModels.StockCount.constructor | backend/apps/inventory/models.py:86-105 | a new count is in progress, has no items and no completion, and is valid |
| InventorySerializers.Abs | backend/apps/inventory/serializers.py:36 | the absolute value: non-negative and equal to the value or its negation |
| InventorySerializers.NormalizeQuantity | backend/apps/inventory/serializers.py:30-42 | outgoing types give −\|q\| ≤ 0, incoming types give \|q\| ≥ 0, any other type passes the quantity through; the magnitude never changes |
| InventorySerializers.NormalizeIdempotent | backend/apps/inventory/serializers.py:30-42 | normalising twice gives what normalising once gives |
| InventorySerializers.NormalizeByType | backend/apps/inventory/serializers.py:35-42 | sale, damage and transfer take stock out; purchase and return bring it in; an adjustment is kept as given |
| InventorySerializers.CreateMovement | backend/apps/inventory/serializers.py:44-76 | the movement records the stock before and after, the product's stock becomes the stock after, and an alert with the new stock and threshold is raised iff the product is low and has no active alert; the product's other fields, barcode and tax included, are unchanged |
| InventoryViews.Resolve | backend/apps/inventory/views.py:51-68 | a resolved alert is refused and left alone; any other, an ignored one included, is resolved by the user at the given time |
| InventoryViews.Ignore | backend/apps/inventory/views.py:70-78 | any alert, a resolved one included, becomes ignored; its resolution stays recorded |
| InventoryViews.ActiveAlerts | backend/apps/inventory/views.py:80-85 | exactly the active alerts, in order |
| InventoryViews.ActiveAlertsKeepOrder | backend/apps/inventory/views.py:80-85 | the active alerts of two runs are those of the first followed by those of the second, and a single alert is kept exactly when it is active |
| InventoryViews.ActiveAlertsCount | backend/apps/inventory/views.py:80-85 | the active alerts listed are as many as the positions of active alerts |
| InventoryViews.CreateCount | backend/apps/inventory/views.py:96-107 | a count "COUNT-<date>-<hex>" that is in progress and empty, with the given or empty description; a null description creates nothing |
| InventoryViews.ScalarInt | backend/apps/inventory/views.py:124 | an integer id converts to itself; a null id cannot be converted |
| InventoryViews.LookupProduct | backend/apps/inventory/views.py:120-129 | a found product has the requested id; a missing or null id finds nothing; a non-negative integer id is found iff a product has it |
| InventoryViews.CountedQuantity | backend/apps/inventory/views.py:121 | an integer counted quantity is used as given; a missing or null one cannot be saved |
| InventoryViews.FindItem | backend/apps/inventory/views.py:131-139 | the position of the count's item for the product, or none when it has no item for it |
| InventoryViews.AddItem | backend/apps/inventory/views.py:110-142 | only a count in progress takes items and the product must exist; the item for the product is created or updated with the present stock as system quantity and its variance; the count keeps at most one item per product |
| InventoryViews.Recount | backend/apps/inventory/views.py:130-138 | an existing item takes the product's present stock as system quantity, the counted quantity and notes, and its recomputed variance; no other item changes and the count keeps one item per product |
| InventoryViews.AppendItem | backend/apps/inventory/views.py:130-138 | a product the count does not hold gets a new saved item at the end of the count, with the present stock as system quantity; the count's status is kept |
| InventoryViews.ApplyItem | backend/apps/inventory/views.py:157-172 | an item with a variance writes exactly its adjustment and sets its product's stock to the counted quantity; one without writes nothing and leaves the stock; no other product field changes |
| InventoryViews.AdjustmentsConsistent | backend/apps/inventory/views.py:156-168 | every adjustment a count writes is non-zero, moves stock from the system quantity to the counted one, and names a counted product |
| InventoryViews.ApplyCount | backend/apps/inventory/views.py:156-172 | each item with a variance writes its adjustment and sets its product's stock to the counted quantity; items without one leave their product alone; no product field other than the stock changes |
| InventoryViews.Complete | backend/apps/inventory/views.py:145-181 | a count not in progress is refused and nothing changes; otherwise the adjustments are applied, only the stock of the counted products changes, and the count is completed by the user at the given time |
| PaymentsModels.Payment.constructor | backend/apps/payments/models.py:6-41 | a new payment holds the given fields, its account number and initiation time included, and is pending, with empty references, message and metadata |
| PaymentsModels.ParseMethod | backend/apps/payments/models.py:8-14 | a method is read only from one of the five stored names, and stands for that name |
| PaymentsModels.MethodNameRoundTrip | backend/apps/payments/models.py:8-14 | every method's stored name reads back as that method |
| PaymentsModels.FindByReference | backend/payments/airtel/services.py:159-162 | the lookup of the Airtel and card callbacks: a payment whose transaction reference is the id's text; none only when no payment has it |
| PaymentsModels.Refund.constructor | backend/apps/payments/models.py:86-115 | a new refund holds the given fields and is pending, unapproved and uncompleted |
| PaymentsModels.CreditSale | backend/apps/payments/views.py:66-67 | the payment amount is added to the sale's amount paid and the payment status is reclassified; the sale status is left alone |
| PaymentsModels.CompletedRefundsBound | backend/apps/payments/serializers.py:117 | with no negative refund amounts the completed sum is never negative |
| PaymentsSerializers.FindByKey | backend/apps/payments/serializers.py:29 | the lookup of a primary key related field (the `sale` here, the refund's `payment` at line 107): a row found has the key and is among the rows; none only when no row has it |
| PaymentsSerializers.PkKey | backend/apps/payments/serializers.py:29 | absent is required; null and the empty text are refused as null; a key is read exactly from an integer, or from a text `int()` reads; a boolean or any other text is of the wrong type |
| PaymentsSerializers.MissingPk | backend/apps/payments/serializers.py:29 | the refusal of a key that names no row quotes the key as it was sent |
| PaymentsSerializers.SaleField | backend/apps/payments/serializers.py:29 | absent is required; null, and the empty text (which a related field reads as null), are refused as null; a sale accepted is among the sales and named by the value, an integer or a text `int()` reads; every sale named by its integer key is accepted |
| PaymentsSerializers.MethodField | backend/apps/payments/serializers.py:30 | absent is required, null is refused; a value is accepted iff its text is one of the method names, and then stands for that name |
| PaymentsSerializers.OptionalText | backend/apps/payments/serializers.py:32-33 | absent stays absent, null is refused; a text is kept with surrounding white space removed |
| PaymentsSerializers.ParseNumeral | backend/apps/payments/serializers.py:31 | a numeral read has only digits before and after its point, and at least one digit |
| PaymentsSerializers.PrecisionError | backend/apps/payments/serializers.py:31 | within ten digits in total and two places the cents value has at most ten digits; more than two places is always refused |
| PaymentsSerializers.AmountField | backend/apps/payments/serializers.py:31 | absent is required, null is refused; an accepted amount is below 10^10 cents in size |
| PaymentsSerializers.AmountBound | backend/apps/payments/serializers.py:31 | an amount within the precision limits is below 10^10 cents in size |
| PaymentsSerializers.AmountFieldReadsCentsText | backend/apps/payments/serializers.py:31 | every amount that fits the field, written with two places, is read back as itself |
| PaymentsSerializers.InitiateFieldErrors | backend/apps/payments/serializers.py:29-33 | no error iff every field accepts its value; a refused sale is reported first; only the five field names appear, and the sale only when it was refused |
| PaymentsSerializers.ValidateInitiateRequest | backend/apps/payments/serializers.py:27-54 | field errors refuse the request with all of them; a request without a sale is refused with the sale's "This field is required." first; a valid request has each field's parsed value and passes the whole-request check; otherwise that check's message is the one error |
| PaymentsSerializers.ValidateInitiate | backend/apps/payments/serializers.py:35-54 | accepted iff the sale is not paid, the amount is within the remaining balance and a mobile payment has a phone number; the refusals read "Sale is already fully paid", then "Amount exceeds remaining balance: <balance>", then "Phone number is required for mobile payments", the first that applies deciding; an accepted amount never takes the amount paid past the total |
| PaymentsSerializers.ExactBalanceAccepted | backend/apps/payments/serializers.py:46-48 | paying exactly the remaining balance is accepted |
| PaymentsSerializers.BlankPhoneRefused | backend/apps/payments/serializers.py:51-52 | a phone number of spaces is trimmed to nothing by its field, and mobile money is then refused with its message |
| PaymentsSerializers.CreatePayment | backend/apps/payments/serializers.py:56-69 | a pending payment with the request's fields, the reference "PAY-<stamp>-<hex>", the requester as initiator and the creation time; a text not given is stored empty |
| PaymentsSerializers.PaymentFieldErrors | backend/apps/payments/serializers.py:111-121 | the payment passes iff it succeeded and its completed refunds are below its amount |
| PaymentsSerializers.ReasonFieldErrors | backend/apps/payments/serializers.py:109 | the reason passes iff it is not blank once trimmed |
| PaymentsSerializers.RefundPaymentField | backend/apps/payments/serializers.py:107-121 | absent is required, null and the empty text are refused as null, a key naming no payment is refused; the field accepts exactly a payment named by the key that succeeded and has something left after its completed refunds |
| PaymentsSerializers.ReasonField | backend/apps/payments/serializers.py:109 | absent is required, null is refused, a text blank once trimmed is refused as blank; an accepted reason is the value's text trimmed, never blank and never from a boolean |
| PaymentsSerializers.RefundFieldErrors | backend/apps/payments/serializers.py:107-121 | no error iff all three fields accept their values; a refused payment is reported first; every error is under one of the three field names |
| PaymentsSerializers.ValidateRefundRequest | backend/apps/payments/serializers.py:105-134 | field errors refuse the request with all of them; a missing payment is reported first as required; with every field clean the outcome is that of `validate`; an accepted request names a successful payment of the list whose completed refunds plus the amount stay within it |
| PaymentsSerializers.KeyedRefundRequest | backend/apps/payments/serializers.py:105-134 | a request naming a payment by its key, with the amount as two-place text and a reason that is not blank, is accepted exactly when the payment succeeded, something is left and the amount fits the rest |
| PaymentsSerializers.ValidateRefund | backend/apps/payments/serializers.py:105-134 | accepted iff the payment succeeded, the reason is not blank, something is left and the amount is within the payment less its completed refunds; an accepted refund keeps completed plus requested within the payment |
| PaymentsSerializers.CreateRefund | backend/apps/payments/serializers.py:136-148 | a pending refund with the reference "REF-<stamp>-<hex>", the trimmed reason and the requester |
| PaymentsViews.ResponseFor | backend/apps/payments/views.py:73-82 | success gives 201; a refusal gives 400 with its error; a None error cannot be saved and gives a server error |
| PaymentsViews.ErrorBody | backend/apps/payments/views.py:43 | the 400 body of a refused request: each failing field with the list of its message, or the whole-request error under non_field_errors |
| PaymentsViews.Initiate | backend/apps/payments/views.py:39-82 | an invalid request is answered 400 with the serializer's errors and nothing stored, a request without a sale with the sale's error first; a valid one creates the payment for its sale, method and amount and answers as the routing does; cash succeeds at once and credits the sale |
| PaymentsViews.Route | backend/apps/payments/views.py:46-82 | the answer follows the method's service; cash succeeds at once and credits the sale; an unsupported method fails; any refusal marks the payment failed with the error and leaves the sale alone |
| PaymentsViews.Verify | backend/apps/payments/views.py:84-102 | for M-Pesa, Airtel and card the payment and sale end exactly as that service's verification states; cash and bank get "Cannot verify this payment method" and change nothing |
| PaymentsViews.PendingPayments | backend/apps/payments/views.py:104-109 | exactly the pending and processing payments initiated within the given start and end dates, both included, in order |
| PaymentsViews.PendingPaymentsKeepOrder | backend/apps/payments/views.py:25-37 | the pending list of two runs of payments is that of the first followed by that of the second, and a single payment is listed exactly when it is open and initiated within the dates |
| PaymentsViews.Approve | backend/apps/payments/views.py:133-182 | a refund not pending is refused with nothing changed; a cash refund completes with approver and time and marks the payment refunded; a refusal marks the refund failed with the error |
| PaymentsViews.Statuses | backend/apps/payments/serializers.py:117 | the status of each refund, in order |
| PaymentsViews.CompletedUnderPresent | backend/apps/payments/serializers.py:117 | the completed sum is the sum under the refunds' present statuses |
| PaymentsViews.CompletedUnderUpdate | backend/apps/payments/serializers.py:117 | changing one refund's status moves the completed sum by exactly the change in its contribution |
| PaymentsViews.ApproveChecked | backend/apps/payments/views.py:133-182 | approval that checks the balance again refuses a refund larger than what is left; completed refunds then never exceed the payment |
| PaymentsViews.WholeRefundAccepted | backend/apps/payments/serializers.py:123-134 | while a whole refund is still pending, a second whole refund is accepted |
| PaymentsViews.DoubleRefundAsWritten | backend/apps/payments/views.py:156-168 | two whole refunds of one cash payment are both approved, and completed refunds reach twice the payment |
| PaymentsViews.DoubleRefundChecked | backend/apps/payments/views.py:156-168 | with the balance checked at approval the second refund is refused and completed refunds stay at the payment amount |
| MpesaServices.Password | backend/payments/mpesa/services.py:42-45 | the password is base64 text, its length a multiple of four |
| MpesaServices.PasswordDecodes | backend/payments/mpesa/services.py:42-45 | decoding the password gives the UTF-8 bytes of shortcode, passkey and timestamp, in that order |
| MpesaServices.StkPush | backend/payments/mpesa/services.py:47-78 | the normalised phone pays the shortcode the whole shillings of the amount with the stamped password, referenced by the transaction reference and described by the sale number |
| MpesaServices.NonJsonRefused | backend/payments/mpesa/services.py:82-92 | a body that is not JSON is never accepted, carries errorCode INVALID_RESPONSE, and quotes at most 200 characters of the body |
| MpesaServices.Initiate | backend/payments/mpesa/services.py:118-172 | simulation succeeds and credits the sale; otherwise ResponseCode '0' moves the payment to processing with the request ids, and anything else, an exception included, is a refusal that changes nothing |
| MpesaServices.LastValue | backend/payments/mpesa/services.py:208-214 | a value found is the value of an item with the name |
| MpesaServices.LastItemWins | backend/payments/mpesa/services.py:208-214 | a later item with the name overrides every earlier one |
| MpesaServices.OtherItemsIgnored | backend/payments/mpesa/services.py:208-214 | items with other names do not disturb the value |
| MpesaServices.ReadDetails | backend/payments/mpesa/services.py:204-214 | each of receipt number, amount and phone number keeps the value of the last item that carries it |
| MpesaServices.CheckoutId | backend/payments/mpesa/services.py:255 | present exactly when the metadata holds the checkout id key |
| MpesaServices.FindByCheckout | backend/payments/mpesa/services.py:187-189 | the first payment in table order whose metadata holds the checkout id; none when no payment does |
| MpesaServices.ProcessCallback | backend/payments/mpesa/services.py:175-249 | ResultCode 0 marks the matching payment successful with the last receipt number and credits its sale; any other code marks it failed with the description; a log row that cannot be saved changes nothing |
| MpesaServices.Verify | backend/payments/mpesa/services.py:252-300 | no checkout id, an exception or an errorCode change nothing; '0' succeeds and credits the sale, '1032' cancels, '1037' fails as a timeout, anything else fails with the description; the present status is not consulted; `Verified` states all of this in one predicate, which the verify endpoint reuses |
| MpesaServices.VerifyTwice | backend/payments/mpesa/services.py:274-281 | two '0' verifications of one payment credit its sale twice |
| AirtelServices.PaymentRequestFor | backend/payments/airtel/services.py:46-77 | the normalised phone number, starting 254, pays the payment amount; the transaction reference is both the reference and the transaction id |
| AirtelServices.Initiate | backend/payments/airtel/services.py:99-150 | simulation succeeds and credits the sale; otherwise status code '200' moves the payment to processing with Airtel's transaction id, and anything else, an exception included, is a refusal that changes nothing |
| AirtelServices.ProcessCallback | backend/payments/airtel/services.py:153-208 | code 'TS' marks the payment successful with the id as external reference and credits its sale; any other code marks it failed with the message; a log row that cannot be saved changes nothing |
| AirtelServices.Verify | backend/payments/airtel/services.py:211-235 | 'TS' succeeds and credits the sale, 'TF' and 'TD' fail with the message, any other code leaves the payment as it is; the present status is not consulted; `Verified` states all of this in one predicate, which the verify endpoint reuses |
| CardServices.CardRequestFor | backend/payments/cards/services.py:97-103 | the payment amount and reference, and the payment's phone number or else the sale's customer phone |
| CardServices.Initiate | backend/payments/cards/services.py:93-127 | status 'success' moves the payment to processing with the gateway's ids; anything else is a refusal with its message or 'Gateway request failed', and changes nothing |
| CardServices.WithCard | backend/payments/cards/services.py:162-165 | the metadata gains card_type and card_last4; every other key is kept |
| CardServices.ProcessCallback | backend/payments/cards/services.py:130-186 | 'success' marks the payment successful with the gateway id, merges the card details and credits its sale; any other status marks it failed with the message or 'Payment failed'; a failed save changes nothing |
| CardServices.Verify | backend/payments/cards/services.py:189-212 | 'success' succeeds and credits the sale, 'failed' and 'declined' fail with the message, any other status leaves the payment as it is; `Verified` states all of this in one predicate, which the verify endpoint reuses |
| CardServices.RefundRequestFor | backend/payments/cards/services.py:219-224 | the refund of the payment's external reference, with the refund's amount and reason |
| CardServices.ProcessRefund | backend/payments/cards/services.py:215-245 | 'success' completes the refund with the gateway id, the time and the requester as approver and marks the payment refunded; anything else is a refusal with its message or 'Refund failed' that changes nothing |
| Reports.DayStart | backend/apps/reports/views.py:26 | the start of today is at most now and less than a day before it |
| Reports.SalesPeriod | backend/apps/reports/views.py:19-43 | week, month and year end now and start 7, 30 and 365 days back; custom with both dates takes the parsed dates, and fails when one cannot be parsed; every other case is the start of today to now |
| Reports.SalesPeriodFallsBackToToday | backend/apps/reports/views.py:41-43 | a missing or unknown period, and custom without both dates, give the range from the start of today to now |
| Reports.ProfitPeriod | backend/apps/reports/views.py:187-208 | week and month start 7 and 30 days back; custom with a start date starts at that date and fails when it or a given end cannot be parsed; any other period starts at the start of today; an end date given sets the end, else the end is now |
| Reports.YearDiffersBetweenReports | backend/apps/reports/views.py:202-203 | 'year' gives a year of sales but only today's profit |
| Reports.CompletedIn | backend/apps/reports/views.py:46-51 | exactly the completed sales created within the range, both ends included, in order |
| Reports.CompletedInKeepsOrder | backend/apps/reports/views.py:46-51 | the counted sales of two runs are those of the first followed by those of the second, and a single sale is counted exactly when it is completed within the range |
| Reports.Average | backend/apps/reports/views.py:108 | revenue / count as an exact fraction when there are sales, else 0 |
| Reports.SalesSummaryOf | backend/apps/reports/views.py:46-57 | over the completed sales of the range: their count, and the sums of their totals, tax amounts and discounts; the average sale is revenue over count (0 without sales) |
| Reports.CountingSaleAdds | backend/apps/reports/views.py:46-57 | a completed sale inside the range adds one to the count and its total, tax and discount to the three sums |
| Reports.OnlyCountingSalesMatter | backend/apps/reports/views.py:46-51 | a pending or cancelled sale, or one outside the range, leaves the summary as it is |
| Reports.RevenueBounds | backend/apps/reports/views.py:55 | totals between lo and hi give a revenue between lo and hi times the count |
| Reports.AverageWithinTotals | backend/apps/reports/views.py:108 | the average sale lies between the smallest and the largest counted total |
| Reports.ActiveProducts | backend/apps/reports/views.py:123 | exactly the active products, in order |
| Reports.ActiveProductsKeepOrder | backend/apps/reports/views.py:123 | the active products of two runs are those of the first followed by those of the second, and a single product is kept exactly when it is active |
| Reports.InventorySummaryOf | backend/apps/reports/views.py:121-174 | the product count is the number of active products; the stock value is stock × cost summed over them; low stock counts the active products at or below their threshold and out of stock those with no stock; the alerts are the active ones |
| Reports.ActiveCount | backend/apps/reports/views.py:123-126 | the active products counted by the filter are as many as the positions of active products |
| Reports.ActiveLowCount | backend/apps/reports/views.py:132-136 | the low-stock count over the filtered list is the number of active products at or below their threshold |
| Reports.ActiveOutCount | backend/apps/reports/views.py:139 | the out-of-stock count over the filtered list is the number of active products with no stock |
| Reports.ActiveValue | backend/apps/reports/views.py:127-129 | the stock value over the filtered list is stock × cost summed over the active products only |
| Reports.OnlyActiveProductsMatter | backend/apps/reports/views.py:123 | an inactive product leaves the inventory summary as it is |
| Reports.OutOfStockWithinLowStock | backend/apps/reports/views.py:132-139 | with non-negative thresholds, out of stock implies low on stock, so that count is no larger |
| Reports.StockValueNonNegative | backend/apps/reports/views.py:127-129 | non-negative stock and cost prices give a non-negative stock value |
| Reports.ProfitSummaryOf | backend/apps/reports/views.py:210-228 | revenue is the sum of the item totals and cost the sum of cost price × quantity, over the items of the completed sales of the range; tax is the sum of those sales' tax amounts; gross profit = revenue − tax − cost; the margin is gross / revenue × 100 with revenue, else 0 |
| Reports.ProfitOnlyCountingSalesMatter | backend/apps/reports/views.py:210-228 | a pending or cancelled sale, or one outside the range, leaves the profit summary as it is |
| Reports.ProfitCountingSaleAdds | backend/apps/reports/views.py:210-228 | a completed sale inside the range adds its items' revenue and cost, and its own tax amount, to the profit summary |
| Reports.ItemRevenueAppend | backend/apps/reports/views.py:222 | the item-revenue sum over two runs of items is the sum of the two |
| Reports.ItemCostAppend | backend/apps/reports/views.py:223-225 | the item-cost sum over two runs of items is the sum of the two |
| Reports.MarginAtMostHundred | backend/apps/reports/views.py:227-228 | with non-negative tax and cost the margin is at most 100, and exactly 100 only when both are zero |
| Reports.Names | backend/apps/reports/views.py:79-80 | each product name sold, exactly once |
| Reports.Lines | backend/apps/reports/views.py:81-84 | each name's line sums its units and revenue over all items with that name |
| Reports.Insert | backend/apps/reports/views.py:84 | inserting keeps the list sorted by units sold and adds exactly the one line |
| Reports.SortByQuantity | backend/apps/reports/views.py:84 | the lines sorted by units sold, most first, and a permutation of the input |
| Reports.SortedLinesGrouped | backend/apps/reports/views.py:77-84 | every sorted line is the grouped line of a product name sold |
| Reports.TopProducts | backend/apps/reports/views.py:77-84 | exactly ten lines, or one per product sold when fewer were sold; sorted by units sold, each the grouped line of a product sold |
| Reports.LinesOnce | backend/apps/reports/views.py:79-84 | no product name has two lines |
| Reports.NoBetterSellerLeftOut | backend/apps/reports/views.py:84 | every product left out of the top ten sold no more units than any product in it |
| UsersModels.RoleName | backend/apps/users/models.py:8-13 | a role is stored as 'admin' or 'cashier' |
| UsersModels.RoleFromName | backend/apps/users/models.py:8-13 | a stored name is read back only as the role it names |
| UsersModels.RoleNameRoundTrip | backend/apps/users/models.py:8-13 | every role's stored name reads back as that role |
| UsersSerializers.CharField | backend/apps/users/serializers.py:32-33 | a missing value is required, null is refused; a clean value is the stripped text, not blank and long enough; every non-blank string or number long enough is clean |
| UsersSerializers.FieldErrorsOf | backend/apps/users/serializers.py:32-33 | no errors exactly when every field is clean |
| UsersSerializers.ValidateLogin | backend/apps/users/serializers.py:30-49 | field errors iff a field is refused; then no user gives 'Invalid credentials', an inactive user 'User account is disabled', an active one logs in; the 'Must include' branch is never reached |
| UsersSerializers.MissingPasswordNeverChecked | backend/apps/users/serializers.py:39-47 | a missing password is reported against its field and the credentials are never checked |
| UsersSerializers.LoginStripsPassword | backend/apps/users/serializers.py:35-45 | login succeeds iff the backend returns an active user for the stripped name and password |
| UsersSerializers.NewPassword | backend/apps/users/serializers.py:18 | an accepted password has at least eight characters; a missing one is required |
| UsersSerializers.ShortPasswordRefused | backend/apps/users/serializers.py:18 | a non-blank password shorter than eight characters once stripped is refused with the length message |
| UsersSerializers.CreateUser | backend/apps/users/serializers.py:25-27 | the new user is active and holds the given name, email, role and password |
| UsersSerializers.KeysOf | backend/apps/users/serializers.py:11-12 | the keys of a representation, in order |
| UsersSerializers.Represent | backend/apps/users/serializers.py:6-13 | the nine public fields in order, the password not among them, with the id, username, role name and active flag of the user |
| UsersSerializers.RepresentCreated | backend/apps/users/serializers.py:16-23 | the six declared fields other than the write-only password; no id and no password |
| UsersSerializers.RepresentationHidesPassword | backend/apps/users/serializers.py:11-12 | users that differ only in their password have the same representations |
| UsersViews.PermissionFor | backend/apps/users/views.py:27-33 | login is open, the six managing actions need an admin, anything else a logged-in user |
| UsersViews.WhoMayCall | backend/apps/users/views.py:27-33 | a request passes iff it is login, or it manages users and comes from an admin, or it is another action from a logged-in user |
| UsersViews.CheckPermission | backend/apps/users/views.py:27-33 | passes iff permitted; a refused anonymous request is told to authenticate, a logged-in one is forbidden |
| UsersViews.ListGuard | backend/apps/users/views.py:35-41 | passes iff the requester is an admin, otherwise 403 with its message |
| UsersViews.ListUsers | backend/apps/users/views.py:27-41 | listing passes iff the requester is an admin, and the guard's own refusal never shows |
| UsersViews.GetOrCreateToken | backend/apps/users/views.py:50 | the user's existing key, or the new key recorded for them |
| UsersViews.LoginAgainSameToken | backend/apps/users/views.py:50 | logging in again returns the same key and leaves the table as it was |
| UsersViews.LogoutRevokes | backend/apps/users/views.py:60 | after logout, a login issues the new key; other users' keys are untouched |
| UsersViews.TokenTable.constructor | backend/apps/users/views.py:50 | the token table starts empty |
| UsersViews.TokenTable.Login | backend/apps/users/views.py:43-55 | a refused login is a bad request that changes nothing; otherwise the user gets their token and representation |
| UsersViews.TokenTable.Logout | backend/apps/users/views.py:57-61 | an anonymous request is told to authenticate; a user without a token gets a server error; otherwise that user's token alone is deleted |
| UsersViews.Me | backend/apps/users/views.py:63-67 | the requesting user's representation, without the password; anonymous requests are refused |
| Sidebar.VisibleItems | frontend/src/components/Sidebar.jsx:28-30 | every entry shown has the user's role among its roles, and no more entries are shown than listed |
| Sidebar.VisibleMembers | frontend/src/components/Sidebar.jsx:28-30 | the entries shown are entries of the list, and every entry whose roles include the user's role is shown |
| Sidebar.VisibleKeepsOrder | frontend/src/components/Sidebar.jsx:28-30 | filtering keeps the list's order |
| Sidebar.AllShown | frontend/src/components/Sidebar.jsx:28-30 | a list whose every entry is shown is shown whole |
| Sidebar.NoneShown | frontend/src/components/Sidebar.jsx:28-30 | a list none of whose entries is shown shows nothing |
| Sidebar.AdminSeesAll | frontend/src/components/Sidebar.jsx:14-23 | an admin sees all eight entries |
| Sidebar.CashierSeesThree | frontend/src/components/Sidebar.jsx:14-18 | a cashier sees exactly the dashboard, the checkout and the sales |
| Sidebar.NobodySeesNothing | frontend/src/components/Sidebar.jsx:29 | nobody logged in sees nothing |
| UsersPage.SearchParams | frontend/src/pages/Users.jsx:31-37 | 'search' is sent iff the search text is not empty and 'role' iff the role filter is not empty, nothing else, search first |
| UsersPage.RoleBadge | frontend/src/pages/Users.jsx:56-58 | 'badge-primary' iff the role is 'admin', otherwise 'badge-secondary' |
| UsersPage.BadgeOfUser | frontend/src/pages/Users.jsx:152 | a user the API returns gets the primary badge iff they are an admin |
| UsersPage.DisplayName | frontend/src/pages/Users.jsx:148 | never empty and never with surrounding whitespace: the trimmed "first last", or '-' when that is blank |
| UsersPage.TrimKeeps | frontend/src/pages/Users.jsx:148 | a text without surrounding whitespace is left as it is by trimming |
| UsersPage.FullNameShown | frontend/src/pages/Users.jsx:148 | a user with both names shows them separated by one space |
| UsersPage.FirstNameOnlyShown | frontend/src/pages/Users.jsx:148 | a user with only a first name shows it without the trailing space |
| UsersPage.NoNameShowsDash | frontend/src/pages/Users.jsx:148 | a user with neither name shows '-' |
| UsersPage.PageView | frontend/src/pages/Users.jsx:64-72 | the user table (or the form) iff the current user's role is 'admin'; both pages share this gate |
| UsersPage.OnlyAdminsSeeUsers | frontend/src/pages/Users.jsx:64-72 | nobody logged in is denied; a user as the API represents them sees the table iff they are an admin |
| UsersPage.UsersFrom | frontend/src/pages/Users.jsx:23 | the page's results when they are truthy, otherwise the whole reply |
| UsersPage.UsersListPage.constructor | frontend/src/pages/Users.jsx:10-13 | the page opens loading, with no users, no toasts and nothing sent |
| UsersPage.UsersListPage.FetchUsers | frontend/src/pages/Users.jsx:19-29 | one list request; success replaces the users, failure keeps them and says 'Failed to load users'; loading ends |
| UsersPage.UsersListPage.HandleSearch | frontend/src/pages/Users.jsx:31-37 | one list request with the non-empty filters |
| UsersPage.UsersListPage.HandleDelete | frontend/src/pages/Users.jsx:39-54 | the current user's id is refused before any confirmation or request; otherwise a confirmation, then the delete, then a success toast and a fresh listing, or a failure toast; the current user's id is never sent for deletion |
| UserForm.OrEmpty | frontend/src/pages/UserForm.jsx:35-39 | a truthy value is kept; anything falsy becomes the empty text |
| UserForm.Loaded | frontend/src/pages/UserForm.jsx:33-42 | the form holds its eight fields; the password is empty; email, names and phone are either empty or the user's truthy value |
| UserForm.UsernameMember | backend/apps/users/serializers.py:11-12 | the representation's username is the user's |
| UserForm.EmailMember | backend/apps/users/serializers.py:11-12 | the representation's email is the user's |
| UserForm.RoleMember | backend/apps/users/serializers.py:11-12 | the representation's role is the user's role name |
| UserForm.PhoneMember | backend/apps/users/serializers.py:11-12 | the representation's phone number is the user's, null when they have none |
| UserForm.ActiveMember | backend/apps/users/serializers.py:11-12 | the representation's active flag is the user's |
| UserForm.LoadedLookups | frontend/src/pages/UserForm.jsx:33-42 | username, role and active flag are copied as given; email and phone fall back to the empty text |
| UserForm.LoadsRepresentation | frontend/src/pages/UserForm.jsx:28-42 | a user the API returns loads field for field, a user without phone shows an empty one, and the password stays empty |
| UserForm.Payload | frontend/src/pages/UserForm.jsx:56-61 | editing with an empty password drops the password key; otherwise the form is sent as it is |
| UserForm.SubmitRequest | frontend/src/pages/UserForm.jsx:51-76 | refused iff creating without a password, with its message; editing sends an update of the user, creating sends a create, never both |
| UserForm.NoEmptyPasswordSent | frontend/src/pages/UserForm.jsx:59-68 | no request carries an empty password |
| UserForm.EditKeepsTypedPassword | frontend/src/pages/UserForm.jsx:59-71 | editing with a typed password sends it, with every other field as it is |
| UserForm.SaveErrorMessage | frontend/src/pages/UserForm.jsx:79-82 | always a truthy message: the first element of the username errors when truthy, else that of the email errors when truthy, else that of the password errors when truthy, else "Failed to save user" |
| UserForm.PasswordErrorShown | frontend/src/pages/UserForm.jsx:79-82 | the server's password error reaches the user as written when username and email passed |
| UserForm.TextErrorShowsFirstCharacter | frontend/src/pages/UserForm.jsx:79 | an error given as bare text shows only its first character |
| UserForm.UserFormPage.constructor | frontend/src/pages/UserForm.jsx:12-22 | a new page holds the initial form: empty texts, the cashier role, active |
| UserForm.UserFormPage.FetchUser | frontend/src/pages/UserForm.jsx:28-49 | success loads the form from the user; failure says so and returns to the user list |
| UserForm.UserFormPage.HandleSubmit | frontend/src/pages/UserForm.jsx:51-87 | a refused submission only shows why; otherwise exactly one request is sent, success returns to the list with its message, failure shows the server's reason |
| UserForm.UserFormPage.HandleChange | frontend/src/pages/UserForm.jsx:89-95 | the named field takes the checked state for a checkbox and the value otherwise; no other field changes |
| PosCheckout.Limit | frontend/src/pages/POSCheckout.jsx:62-69 | the page's stock reading is defined exactly when the member read is the one the API sends (`stock`), and then equals the product's stock |
| PosCheckout.Find | frontend/src/pages/POSCheckout.jsx:67 | the index found holds the product and is the first such line; nothing is found iff no line holds the product |
| PosCheckout.SetQuantity | frontend/src/pages/POSCheckout.jsx:91-93 | the cart keeps its length; the product's lines take the new quantity and every other line is unchanged |
| PosCheckout.Remove | frontend/src/pages/POSCheckout.jsx:96-98 | the result holds no line of the product, only lines of the cart, and every line of another product |
| PosCheckout.UpdateQuantity | frontend/src/pages/POSCheckout.jsx:81-94 | 'Insufficient stock' iff the new quantity exceeds the line's stock reading, and then the cart is unchanged; otherwise a quantity of zero or less removes the line and a positive one is set; the search is never cleared |
| PosCheckout.AddToCart | frontend/src/pages/POSCheckout.jsx:61-79 | a product with stock at or below zero is refused with 'Product out of stock' and nothing changes; a product whose line already holds its positive stock is refused with 'Insufficient stock' and nothing changes; a product not in the cart is appended with quantity one and the search cleared; whenever nothing is refused the search is cleared |
| PosCheckout.AddExistingIncrements | frontend/src/pages/POSCheckout.jsx:67-73 | a product already in the cart and below its stock gets exactly one more unit through the quantity update, and the search is cleared |
| PosCheckout.RemoveKeepsUnique | frontend/src/pages/POSCheckout.jsx:96-98 | removing keeps one line per product |
| PosCheckout.AddKeepsUnique | frontend/src/pages/POSCheckout.jsx:61-79 | adding keeps one line per product, whichever stock member is read |
| PosCheckout.UpdateKeepsUnique | frontend/src/pages/POSCheckout.jsx:81-94 | changing a quantity keeps one line per product |
| PosCheckout.RemoveKeepsStocked | frontend/src/pages/POSCheckout.jsx:96-98 | removing keeps every line between one unit and its product's stock |
| PosCheckout.UpdateKeepsStocked | frontend/src/pages/POSCheckout.jsx:81-94 | reading `stock`, changing a quantity keeps every line between one unit and its stock |
| PosCheckout.AddKeepsStocked | frontend/src/pages/POSCheckout.jsx:61-79 | reading `stock`, adding keeps every line between one unit and its stock: the cart never sells more than is held |
| PosCheckout.AsWrittenSellsOutOfStock | frontend/src/pages/POSCheckout.jsx:62 | reading `stock_quantity`, a product with no stock is added with quantity one, and the cart then holds more than the stock |
| PosCheckout.AsWrittenNeverInsufficient | frontend/src/pages/POSCheckout.jsx:83 | reading `stock_quantity`, no quantity change is ever refused for want of stock |
| PosCheckout.RemoveAbsent | frontend/src/pages/POSCheckout.jsx:96-98 | removing a product that is not in the cart leaves the cart as it is |
| PosCheckout.TotalAppend | frontend/src/pages/POSCheckout.jsx:22-26 | a new line adds its price times its quantity to the cart total |
| PosCheckout.TotalSetQuantity | frontend/src/pages/POSCheckout.jsx:91-93 | setting a product's quantity replaces its line's amount in the total by the amount at the new quantity |
| PosCheckout.TotalRemove | frontend/src/pages/POSCheckout.jsx:96-98 | removing a product's line takes its price times its quantity off the total |
| PosCheckout.UpdateTotal | frontend/src/pages/POSCheckout.jsx:81-94 | after a quantity change the total is unchanged when refused, loses the line's amount when the line is removed, and moves by price times the difference otherwise |
| PosCheckout.SaleOf | frontend/src/pages/POSCheckout.jsx:117-125 | one sale item per cart line in cart order, carrying the product id, quantity and price, with the payment method and amount paid of the payment step |
| PosCheckout.SaleWorthTotal | frontend/src/pages/POSCheckout.jsx:117-125 | the sale sent is worth exactly the total the page showed |
| PosCheckout.ToastsOf | frontend/src/pages/POSCheckout.jsx:63-84 | no toast is shown iff there was no error |
| PosCheckout.Checkout.constructor | frontend/src/pages/POSCheckout.jsx:8-14 | the page starts with an empty cart, zero total, no results, empty inputs, not loading and the payment step closed |
| PosCheckout.Checkout.AddProduct | frontend/src/pages/POSCheckout.jsx:61-79 | the cart becomes the one addToCart computes, its toast is appended, the search is cleared iff the add clears it, the total still matches the cart and the invariant holds |
| PosCheckout.Checkout.ChangeQuantity | frontend/src/pages/POSCheckout.jsx:81-94 | the cart becomes the one updateQuantity computes and the total moves by the line's change; nothing else changes |
| PosCheckout.Checkout.RemoveFromCart | frontend/src/pages/POSCheckout.jsx:96-98 | the product's line goes and its amount leaves the total; an absent product changes nothing |
| PosCheckout.Checkout.ClearCart | frontend/src/pages/POSCheckout.jsx:100-105 | cart, total, results, search and barcode are emptied; nothing else changes |
| PosCheckout.Checkout.HandleCheckout | frontend/src/pages/POSCheckout.jsx:107-113 | an empty cart shows 'Cart is empty' and the payment step stays as it was; otherwise the payment step opens |
| PosCheckout.Checkout.HandlePaymentComplete | frontend/src/pages/POSCheckout.jsx:115-134 | the sale built from the cart is sent; on success the receipt number is announced, the cart is cleared and the payment step closes; on failure only 'Failed to complete sale' is shown |
| PosCheckout.Checkout.HandleBarcodeSubmit | frontend/src/pages/POSCheckout.jsx:28-44 | a blank barcode does nothing; otherwise the trimmed code is asked for; a product found goes through addToCart, is announced as added and the barcode is emptied, and the results and search are cleared exactly when addToCart clears them; otherwise 'Product not found' with cart, total, results and search unchanged; the payment step never changes, and a blank code leaves every field, loading included, as it was |
| PosCheckout.Checkout.HandleProductSearch | frontend/src/pages/POSCheckout.jsx:46-59 | a blank search does nothing; otherwise the search as typed is sent and the results replace the list, or 'Failed to search products' is shown; cart, total, search text, barcode and payment step never change, and a blank search leaves loading as it was |
| PaymentModal.InitiateErrorMessage | frontend/src/components/PaymentModal.jsx:75-78 | always a truthy message: the body's truthy `error` first, then the first of its `non_field_errors`, then the first element of its first value, and the fallback for a falsy body |
| PaymentModal.NonFieldErrorShown | frontend/src/components/PaymentModal.jsx:75-78 | a whole-request refusal such as a sale already paid is shown as written |
| PaymentModal.FieldErrorShown | frontend/src/components/PaymentModal.jsx:75-78 | a refusal of one field shows that field's first message |
| PaymentModal.InitiateBody | frontend/src/components/PaymentModal.jsx:65-69 | the request ends with the amount, starts with the sale when one was given, and is just method and amount for cash without a sale |
| PaymentModal.CashEffects | frontend/src/components/PaymentModal.jsx:53-83 | cash sends a request iff the amount paid covers the total; it schedules nothing and leaves the processing flag alone |
| PaymentModal.MobileEffects | frontend/src/components/PaymentModal.jsx:85-141 | a request is sent iff the phone number is accepted; whatever is reported to the checkout is the method with the total |
| PaymentModal.CardEffects | frontend/src/components/PaymentModal.jsx:143-166 | a request is sent iff the card number is accepted; after a request the dialog is no longer processing; nothing is scheduled |
| PaymentModal.PaymentEffects | frontend/src/components/PaymentModal.jsx:50-167 | the effects are those of the selected method, and nothing for a method the dialog does not know |
| PaymentModal.ShortCashRefused | frontend/src/components/PaymentModal.jsx:54-57 | cash short of the total shows 'Amount paid is less than total', sends nothing and reports nothing |
| PaymentModal.CashChangeAndAmounts | frontend/src/components/PaymentModal.jsx:58-72 | the change announced is amount paid less total, only when positive; the request asks for the total while the checkout is told the amount paid |
| PaymentModal.CashRefusalShown | frontend/src/components/PaymentModal.jsx:73-80 | a refused cash payment reports nothing and shows the server's reason last |
| PaymentModal.MobileOutcomes | frontend/src/components/PaymentModal.jsx:103-130 | 'success' completes at once with the total; 'pending' or 'processing' schedules one confirmation after 15000 ms for the payment's id and completes nothing; any other status completes nothing, schedules nothing and leaves the dialog processing |
| PaymentModal.ShortPhoneRefused | frontend/src/components/PaymentModal.jsx:86-89 | a phone number of fewer than ten ordinary characters (a nine-digit one, say) is refused before any request |
| PaymentModal.CardInput | frontend/src/components/PaymentModal.jsx:269-271 | the card number kept has no whitespace and at most sixteen UTF-16 units |
| PaymentModal.RemovingSpacesShortens | frontend/src/components/PaymentModal.jsx:269 | removing whitespace never lengthens a text |
| PaymentModal.RemovingASpaceShortens | frontend/src/components/PaymentModal.jsx:269 | a text with a whitespace character gets strictly shorter when whitespace is removed |
| PaymentModal.GroupedCardNumberRefused | frontend/src/components/PaymentModal.jsx:269-271 | a card number typed in the placeholder's grouped form is cut to sixteen characters first, so the dialog refuses it |
| PaymentModal.PaymentDialog.constructor | frontend/src/components/PaymentModal.jsx:43-48 | the dialog opens on cash with the total as the amount paid, empty numbers and nothing done |
| PaymentModal.PaymentDialog.TypeCardNumber | frontend/src/components/PaymentModal.jsx:269-271 | the card number becomes the input's filtered value; nothing else changes |
| PaymentModal.PaymentDialog.HandlePayment | frontend/src/components/PaymentModal.jsx:50-167 | toasts, requests, reports and scheduled confirmations grow by exactly the effects of the selected method; the inputs are unchanged |
| PaymentModal.PaymentDialog.RunTimer | frontend/src/components/PaymentModal.jsx:117-129 | the first scheduled confirmation runs as written: nothing is sent and nothing reported; the toasts are dismissed, 'Payment confirmation failed. Please verify manually.' is shown and processing ends |
| PaymentModal.PaymentDialog.ConfirmByVerify | frontend/src/services/api/endpoints.js:54 | the confirmation through the verify endpoint: it posts verify for its payment; a reply with status 'success' confirms and reports the method with the total; anything else asks for a manual check and ends processing |
| PaymentModal.NoApiEndpoint | frontend/src/services/api/endpoints.js:51-59 | the payments endpoint object has no `api` member, while `verify` exists |
| PaymentModal.PendingMobileNeverConfirmed | frontend/src/components/PaymentModal.jsx:109-129 | a pending M-Pesa payment followed by its confirmation: only the initiation was sent, nothing is reported to the checkout, and the dialog is no longer processing |
| PaymentModal.CheckoutPaymentsNameNoSale | frontend/src/pages/POSCheckout.jsx:297-301 | the checkout opens the dialog without a sale, so no payment request it sends names one |
| PaymentModal.FirstFieldErrorShown | frontend/src/components/PaymentModal.jsx:75-78 | field errors of the payment serializer show the first field's message |
| PaymentModal.MissingSaleShown | frontend/src/components/PaymentModal.jsx:134-138 | a request without a sale is refused with "This field is required." first, and that is the message the dialog shows |
| PaymentModal.CheckoutPaymentRefused | frontend/src/pages/POSCheckout.jsx:297-301 | every payment the checkout's dialog requests is refused for the missing sale; cash and mobile show "This field is required.", card its own failure message, and nothing is reported |
| PaymentModal.NamedSaleAccepted | frontend/src/components/PaymentModal.jsx:65-69 | a dialog given the sale's id sends it, and the server's sale field accepts that sale and reports no sale error |
| ApiClient.ErrorMessage | frontend/src/services/api/client.js:39-62 | a falsy body gives 'An error occurred'; a string body is shown as it is; the message is always truthy |
| ApiClient.FirstFieldMessage | frontend/src/services/api/client.js:55-60 | either the default or "key: ..." for the body's first key; the default when the body has no key |
| ApiClient.FieldErrorShown | frontend/src/services/api/client.js:55-60 | a validation error `{field: [message, ...]}` is shown as "field: message" |
| ApiClient.NonFieldErrorShown | frontend/src/services/api/client.js:55-60 | a refusal outside any field reads "non_field_errors: message" |
| ApiClient.ErrorWins | frontend/src/services/api/client.js:45-46 | a truthy `error` member wins over every other member |
| ApiClient.FalsyFallsThrough | frontend/src/services/api/client.js:45-48 | a falsy `error` is passed over for `detail` |
| ApiClient.FalsyFirstFieldDefault | frontend/src/services/api/client.js:56-60 | a falsy first field gives the default even when a later field holds a message |
| ApiClient.Browser.WithAuthorization | frontend/src/services/api/client.js:14-21 | "Token <t>" becomes the Authorization header iff a non-empty token is stored; every other header is kept and none added |
| ApiClient.Browser.OnError | frontend/src/services/api/client.js:26-66 | the message is the error message of the body; a 401 removes the stored token and user and goes to /login; any other failure changes nothing |
| PhoneNumbers.Normalize | backend/payments/mpesa/services.py:55-59 | the result always starts with 254: a leading 0 is replaced by 254, a number without 254 gets it prepended, and one that starts with 254 is kept |
| PhoneNumbers.NormalizeIdempotent | backend/payments/mpesa/services.py:55-59 | normalising twice gives what normalising once gives |
| PhoneNumbers.NormalizeKeepsSubscriber | backend/payments/airtel/services.py:52-55 | what follows the country code is the number without its trunk 0, or the whole number when it had no prefix |
| Base64.Utf8Char | backend/payments/mpesa/services.py:45 | one character encodes to one to four bytes, a single byte exactly for ASCII |
| Base64.Utf8 | backend/payments/mpesa/services.py:45 | a text encodes to between one and four bytes per character |
| Base64.Utf8Ascii | backend/payments/mpesa/services.py:44-45 | an ASCII text encodes to its own character codes, one byte each |
| Base64.Encode | backend/payments/mpesa/services.py:45 | the encoding's length is a multiple of four and is zero only for no bytes |
| Base64.EncodedLength | backend/payments/mpesa/services.py:45 | every started group of three bytes takes four characters |
| Base64.DecodeEncode | backend/payments/mpesa/services.py:42-45 | decoding the encoding gives back the bytes: the password carries shortcode, passkey and timestamp losslessly |
| Stamps.Digits | backend/apps/payments/serializers.py:61 | a zero-padded field of exactly the width, all digits |
| Stamps.DigitsRoundTrip | backend/apps/payments/serializers.py:61 | zero-padding a number that fits loses nothing |
| Stamps.DateStamp | backend/apps/sales/serializers.py:98 | `%Y%m%d` gives eight digits |
| Stamps.DateTimeStamp | backend/apps/payments/serializers.py:61 | `%Y%m%d%H%M%S` gives fourteen digits beginning with the date stamp |
| Stamps.DateTimeStampInjective | backend/apps/payments/serializers.py:61 | two times with the same stamp are the same time |
| Stamps.Suffix | backend/apps/payments/serializers.py:61 | the first six hex digits of the UUID, upper-cased |
| Stamps.SuffixInjective | backend/apps/payments/serializers.py:61 | equal suffixes come from UUIDs that agree in their first six digits |
| Stamps.SaleNumber | backend/apps/sales/serializers.py:98 | "SALE-" then the date stamp then a dash and six hex digits, twenty characters |
| Stamps.CountNumber | backend/apps/inventory/views.py:98 | "COUNT-" then the date stamp then a dash and six hex digits, twenty-one characters |
| Stamps.TimedReference | backend/apps/payments/serializers.py:61 | the payment ("PAY", line 61) and refund ("REF", line 140) references: the prefix and a dash, the fourteen-digit date-time stamp, a dash and six upper-case hex digits, 22 characters beyond the prefix |
| Stamps.TimedReferenceInjective | backend/apps/payments/serializers.py:140 | equal references have the same prefix and come from the same second and UUIDs that agree in six digits; so a payment reference never equals a refund reference |
| Money.RoundHalfEven | backend/apps/sales/models.py:99-100 | the amount kept to the cent is within half a cent of the exact one, and an exact half goes to the even cent |
| Money.RoundShift | backend/apps/sales/models.py:99-101 | provided the amount added is not exactly half-way between two whole cents, adding whole cents before rounding is the same as adding them after: rounding the subtotal plus its tax is then the subtotal plus the rounded tax (on an exact half cent the two can differ by one cent) |
| Money.RoundNonNegative | backend/apps/products/models.py:55 | a non-negative amount rounds to a non-negative number of cents |
| Python.ParseInt | backend/apps/products/views.py:61 | `int()` of a text succeeds only when the text is not blank |
| Python.ParseIntOfDecimal | backend/apps/products/views.py:61 | `int()` reads back every integer written in decimal |
| Python.StripIdempotent | backend/apps/payments/serializers.py:31 | stripping a stripped text changes nothing |
| Python.CentsText | frontend/src/components/PaymentModal.jsx:60 | an amount of cents is written with exactly two decimals, with a leading '-' iff it is negative |
| Python.CentsTextRoundTrip | frontend/src/components/PaymentModal.jsx:60 | the amount written with two decimals reads back as the same number of cents |
| Js.Trim | frontend/src/pages/POSCheckout.jsx:30 | the trimmed text starts and ends with no whitespace and is empty iff the text was all whitespace |
| Js.TakeUtf16 | frontend/src/components/PaymentModal.jsx:271 | an input's `maxLength` keeps a prefix of the typed text of at most that many UTF-16 units |
| Js.Member | frontend/src/services/api/client.js:45-51 | a member found is one of the object's members under that key; none is found iff no member has the key |

## Left out

- Outbound HTTP to Safaricom, Airtel and the card gateway is not modelled. This covers OAuth tokens, the STK push and query calls, and the payment and refund calls. Their replies are parameters of the service members.
- The HMAC-SHA256 request signature of the card gateway is not modelled: it is foreign cryptography.
- Django ORM persistence and query evaluation are not modelled. Tables are in-memory sequences of objects, and `aggregate` sums are recursive functions.
- The clock, UUID suffixes and the fifteen-second timer are not modelled. Timestamps and suffixes are parameters. A timer is kept as a scheduled confirmation that `PaymentModal.PaymentDialog.RunTimer` runs.
- Concurrency is not modelled: races between callbacks, verifications and stock updates are out of scope.
- Floating point is not modelled. The cart and the payment dialog work on JavaScript numbers, and the reports call Python `float()`; all of these are integer cents here. The `parseFloat` of the amount-paid input is not modelled.
- Rendering, toasts beyond their text, `localStorage` beyond the token and user keys, and React state plumbing are not modelled. Only the decisions behind them are.
- The sales `today` action (backend/apps/sales/views.py:108-117) is not modelled.
- Several report breakdowns are not modelled: payment methods, sales by cashier, hourly sales, sales by category, per-product profit and recent movements in backend/apps/reports/views.py. They are grouped queries with no arithmetic beyond the modelled sums.
- The dashboard statistics view, `DashboardStatsView` (backend/apps/reports/views.py:269-323), is not modelled. It repeats today's counts and sums over the same tables with the same kind of filters.
- Reports.TopProducts: products with equal quantities are ordered by the model's own sort. The database's order for ties is not modelled, and the contract does not promise one.
- Reports.DayStart: takes days as whole multiples of 24 hours from the epoch. The server's time-zone conversion is not modelled.
- UsersSerializers.ValidateLogin: Django's `authenticate` is a parameter (the user it finds, if any). The password hashing is not modelled.
- UsersSerializers.CreateUser: of the user-creation validators only the password rules are modelled. The remaining field validators belong to Django's user model.
- The M-Pesa and Airtel refund functions are constant refusals (`MpesaServices.RefundRefusal`, `AirtelServices.RefundRefusal`).
- PosCheckout.UpdateQuantity: requires the product to be in the cart. The page calls it only for a line it shows or a product it has just found; on any other id the code would throw.
- PosCheckout.Checkout.HandleProductSearch: takes the list of products found as the reply. The `results || data` fallback on the reply is not modelled.
- UsersPage.UsersListPage.HandleDelete: the listing fetched after a delete is modelled as one completed request, not as a concurrent refetch.
- SalesViews.ListSales: the date bounds are taken already parsed. Django's parsing of the `start_date` and `end_date` texts, and the error a malformed date raises, are not modelled.
- SalesViews.ListSales: keeps the order of the sales it is given. The table's `Meta.ordering` (newest first) is taken to be that order; the model does not sort by creation time.
- InventoryViews.ActiveAlerts: keeps the order of the alerts it is given. The table's `Meta.ordering` (newest first) is taken to be that order.
- Reports.CompletedIn: keeps the order of the sales it is given, as the query keeps the table's ordering. The sums over it do not depend on order.
- SalesViews.SearchIgnoresCase: the model folds ASCII letters only. The database's case-insensitive match also folds other letters.
- Python.ParseInt: reads ASCII digits only. Python's `int()` also accepts other Unicode decimal digits.
- MpesaServices.ProcessCallback: the `Amount` item is logged as given. A value the callback log's decimal column cannot store makes that save raise, which is not modelled.
- UsersSerializers.CreateUser: `create_user` normalises the e-mail's domain to lower case; that normalisation is not modelled.
- PaymentsSerializers.InitiateRequest: each member is absent, null, a string, an integer or a boolean. A JSON array or object sent as a member, and a non-integer JSON number, are not modelled.
- PaymentsSerializers.AmountField: an amount in exponent form or with underscores, which Python's `Decimal` reads, is refused here as not a number.
- Reports.ProfitPeriod: the end is a second reading of the clock in the code; the model uses the same `now` for both readings.
- InventoryViews.AddItem: the model takes `update_or_create` to save every field of an existing item, as Django did before 4.2. From Django 4.2 on, the update path saves only the fields in `defaults`. The variance that `StockCountItem.save` recomputes (backend/apps/inventory/models.py:134-137) then stays as stored, and `complete` reads that stale variance. No Django version is pinned, and the model does not capture that behaviour.
- InventoryViews.Recount: states the recomputed variance as stored, which holds under the same pre-4.2 assumption as AddItem.
- AirtelServices.ProcessCallback: the callback's `amount` is logged as given. A value the callback log's decimal column cannot store makes the log save raise before the payment is touched. The source then answers success False with the payment still pending; the model credits the sale instead. A callback whose `transaction` or `status` member is null makes the chained `.get` raise at once, and that is not modelled either: the model takes the callback's members already extracted.
- CardServices.ProcessCallback: the callback's `amount` is logged as given. A value the callback log's decimal column cannot store makes the log save raise before the payment is touched. The source then answers success False with the payment still pending; the model credits the sale instead.
- PaymentsViews.Verify: returns the service's result, and its contract states the stored payment and sale. The view's answer serializes the payment object held in memory, and that object is not modelled. It differs from the stored row when the service's save fails. That happens for an Airtel 'TF' or 'TD' reply whose message is null, and for an M-Pesa reply with any other result code whose description is null. In those cases the answer shows the failed status that was never stored.
- PaymentsViews.PendingPayments: the date bounds arrive already parsed to instants. Django's parsing of the `start_date` and `end_date` query texts, and the error a malformed date raises, are not modelled.
- PaymentsSerializers.RefundRequest: like the initiation request, each member is absent, null, a string, an integer or a boolean. A JSON array or object, and a non-integer JSON number, are not modelled.
- Admin registrations, URL routing, the endpoint table and the callback wrapper views are not modelled. Neither are the presentation-only pages or the developer scripts.

## Findings

| source | as written | input that shows it | evidently intended | confidence | as-written member | corrected member |
|---|---|---|---|---|---|---|
| frontend/src/pages/POSCheckout.jsx:62-83 | the cart compares quantities with `product.stock_quantity`, a member the product API never sends (it sends `stock`), so every stock check compares with `undefined` and never fires | a product with `stock: 0` is added to the cart with quantity 1 | the checks read `stock`, so no line holds more than the product's stock | high, not executed | PosCheckout.AsWrittenSellsOutOfStock | PosCheckout.AddKeepsStocked |
| backend/apps/sales/serializers.py:108-126 | each item gets its own product instance, and each line saves that instance's stock minus its own quantity, so two lines for one product overwrite each other | items of 2 and 3 units of one product with stock 10 leave stock 7 | the stock goes down by the product's total quantity (to 5) | medium, not executed | SalesSerializers.DuplicateItemsLoseDecrement | SalesSerializers.CreateSale |
| backend/apps/payments/views.py:133-182 | approval does not check the refundable balance again, so two pending refunds each validated against the full balance can both complete | two refunds of the whole amount of one cash payment, both approved | completed refunds never exceed the payment | medium, not executed | PaymentsViews.DoubleRefundAsWritten | PaymentsViews.ApproveChecked |
| frontend/src/components/PaymentModal.jsx:120 | the delayed confirmation calls `paymentsAPI.api.post`, but the payments endpoint object has no `api` member, so the call throws before any request and the catch always reports a failure | any M-Pesa or Airtel payment the server reports as pending | the confirmation asks the server about the payment through an endpoint that exists (`paymentsAPI.verify(id)`) and completes when it succeeded | high, not executed | PaymentModal.PendingMobileNeverConfirmed | PaymentModal.PaymentDialog.ConfirmByVerify |
| frontend/src/pages/POSCheckout.jsx:297-301 | the checkout opens the payment dialog without a sale id, so every payment request it sends lacks the required `sale` field and the server refuses it | any payment from the checkout: the answer is 400 with `{"sale": ["This field is required."]}` | the sale is created first and the dialog is given its id, so the sale field accepts it | high, not executed | PaymentModal.CheckoutPaymentRefused | PaymentModal.NamedSaleAccepted |
