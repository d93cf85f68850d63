# Dashboard cart, chat and status logic in Dafny

This project models the client-side logic of a React admin dashboard for a
phone-parts shop. The dashboard is mostly REST calls and MUI screens. Its
event handlers, though, hold a small amount of list logic, and that is what
the model covers:

- **Purchase cart** (`CompraFormData.tsx`, "Nueva Compra"). Lines are keyed
  by `id_producto_calidad`. Adding an id that is already in the cart adds up
  the quantities and re-prices the line to the price just entered. The
  handlers edit quantity and price, remove lines and empty the cart. Submit
  is refused on an empty cart or without a supplier; otherwise it builds a
  payload with status "Completado".
- **Sale cart** (`VentaFormData.tsx`, "Nueva Venta"). The catalogue is
  flattened to one entry per (product, quality) pair and cut down to what is
  in stock. Cart lines keep `1 <= cantidad <= stock`. Adding an id that is
  already in the cart keeps that line's price. Adds and quantity edits that
  would exceed stock are refused with the cart unchanged.
- **Quality-assignment list** (`ProductoFormData.tsx`). The list only grows
  at the end and refuses a quality id it already holds. The dialog can also
  remove a row, validate and build the submit request, and reset on close.
- **Chatbot log** (`asistente/index.tsx`). Sending is guarded. A send
  appends the user's message and one 'loading' placeholder. The reply, or
  the failure, removes the placeholder and appends exactly one bot message.
  The handlers also cover the Enter key, the suggestion chips and the rule
  for when the suggestions are visible.
- **Status helpers** (`compra/lista.tsx`, `venta/lista.tsx`). The purchase
  list matches status names ignoring case, and the sale list matches them
  exactly. The sale list's status filter becomes query parameters.
- **Date helpers** (`overview-analytics-view.tsx`). Dates are written as
  `YYYY-MM-DD`, and the current week runs Sunday to Saturday.

The invariants proved:

- one line per key;
- `subtotal == cantidad * precio`;
- `1 <= cantidad <= stock` in the sale cart;
- at most one chat placeholder;
- quality ids stay distinct.

Each handler is modelled as one pure transition over immutable sequences of
records. Money and quantities are integers; amounts are taken to be in
cents.

Files:

| file | module | contents |
|---|---|---|
| wrappers.dfy | `Wrappers` | `Option`, `Result` |
| lists.dfy | `Lists` | `find`, `filter`, keyed `map` and `reduce` over keyed sequences, with their lemmas |
| text.dfy | `Text` | ASCII case mapping, `String(n)`, `padStart`, `trim`, and the clamped quantity input |
| compra_form.dfy | `CompraForm` | the purchase cart |
| venta_form.dfy | `VentaForm` | the catalogue and the sale cart |
| producto_form.dfy | `ProductoForm` | the quality-assignment list |
| asistente.dfy | `Asistente` | the chatbot log |
| chip.dfy | `Chip` | the chip colours |
| compra_lista.dfy | `CompraLista` | the purchase status helpers |
| venta_lista.dfy | `VentaLista` | the sale status helper and filter |
| overview.dfy | `Overview` | date formatting and the current week |

## Model

| member | source | states |
|---|---|---|
| Lists.Find | src/sections/compra/view/CompraFormData.tsx:159-161 | `find` by key: none exactly when no element has the key; otherwise the index of the first element that has it |
| Lists.Filter | src/sections/compra/view/CompraFormData.tsx:198-200 | `filter`: keeps exactly the elements satisfying the predicate; keeps the whole list when all satisfy it |
| Lists.FilterAppend | src/sections/asistente/index.tsx:78 | filtering distributes over concatenation |
| Lists.RemoveKey | src/sections/compra/view/CompraFormData.tsx:198-200 | after filtering out a key it is absent and every other element is kept; an absent key leaves the list as it was |
| Lists.FilterDropOne | src/sections/compra/view/CompraFormData.tsx:198-200 | filtering out one rejected element between two runs of kept elements joins the runs |
| Lists.RemoveKeyAt | src/sections/compra/view/CompraFormData.tsx:198-200 | with unique keys, removing a present key deletes exactly the element at its index: what is left is the part before it followed by the part after it |
| Lists.RemoveKeyUnique | src/sections/product/view/ProductoFormData.tsx:137-139 | removing by key keeps the keys unique |
| Lists.MapWhere | src/sections/compra/view/CompraFormData.tsx:202-216 | keyed `map`: same length; elements with another key unchanged; elements with the key rewritten |
| Lists.MapWhereAt | src/sections/compra/view/CompraFormData.tsx:164-176 | with unique keys, the keyed `map` is a single-index update at the `find` index, or the identity when the key is absent |
| Lists.MapWhereUnique | src/sections/compra/view/CompraFormData.tsx:164-176 | a rewrite that keeps keys keeps them unique |
| Lists.SumAppend | src/sections/compra/view/CompraFormData.tsx:234-236 | `reduce`-sum of a concatenation is the sum of the sums |
| Lists.SumUpdate | src/sections/compra/view/CompraFormData.tsx:234-236 | updating one element changes the sum by exactly that element's change |
| Lists.SumRemoveAt | src/sections/compra/view/CompraFormData.tsx:234-236 | removing one element lowers the sum by exactly its summand |
| Lists.SumPointwise | src/sections/compra/view/CompraFormData.tsx:234-236 | sums of pointwise-equal summands are equal |
| Text.Lower | src/sections/compra/lista.tsx:206 | `toLowerCase` on ASCII: same length, each letter lowered |
| Text.Upper | src/sections/compra/lista.tsx:227 | `toUpperCase` on ASCII: same length, each letter raised |
| Text.UpperOfLower | src/sections/compra/lista.tsx:218-228 | upper-casing after lower-casing equals upper-casing directly |
| Text.NatToString | src/sections/overview/view/overview-analytics-view.tsx:60-61 | `String(n)`: at least one digit, only digits, no leading zero |
| Text.IntToString | src/sections/overview/view/overview-analytics-view.tsx:59-63 | `String(year)`: for a non-negative number exactly its decimal rendering `NatToString` (digits, no leading zero), otherwise '-' then the rendering of the magnitude; all digits exactly when non-negative |
| Text.ParseNatToString | src/sections/overview/view/overview-analytics-view.tsx:60-61 | reading the decimal rendering back gives the number |
| Text.NatToStringLength | src/sections/overview/view/overview-analytics-view.tsx:59-61 | the rendering has 1, 2, 3 or 4 digits according to magnitude |
| Text.PadStart | src/sections/overview/view/overview-analytics-view.tsx:60-61 | `padStart`: unchanged when already long enough, otherwise exactly `width` long, ending in the original and starting with fill characters only |
| Text.ParseNatZeros | src/sections/overview/view/overview-analytics-view.tsx:60-61 | a run of '0' characters reads as zero |
| Text.ParseNatZeroPrefix | src/sections/overview/view/overview-analytics-view.tsx:60-61 | leading zeros do not change the value |
| Text.ParseNatPadded | src/sections/overview/view/overview-analytics-view.tsx:60-61 | a zero-padded rendering reads back as the number |
| Text.SkipStart | src/sections/asistente/index.tsx:49 | the first index where the text starts: everything before it is white space, and the character there is not |
| Text.SkipEnd | src/sections/asistente/index.tsx:49 | the index where the text ends: everything after it is white space, and the character before it is not |
| Text.Trim | src/sections/asistente/index.tsx:49 | `trim`: a contiguous piece of the input with only white space cut on either side, and no white space at its ends |
| Text.TrimEmptyIffBlank | src/sections/asistente/index.tsx:49 | `!s.trim()` holds exactly when the string is all white space |
| Text.QuantityInput | src/sections/compra/view/CompraFormData.tsx:393 | the quantity field is always at least 1; it keeps a parsed value of at least 1 and otherwise becomes 1 |
| CompraForm.Total | src/sections/compra/view/CompraFormData.tsx:234-236 | `calcularTotal`: zero for an empty cart, and in a valid cart the sum of quantity times price over the lines |
| CompraForm.Open | src/sections/compra/view/CompraFormData.tsx:78-89 | opening empties the cart (total 0), clears the product, the supplier and the banner, and resets quantity to 1 and price to 0 |
| CompraForm.AddAccepted | src/sections/compra/view/CompraFormData.tsx:143-157 | the add guards pass only with a product chosen, a positive price and a positive quantity, and then the new line is valid; a refusal means one of them failed |
| CompraForm.Merge | src/sections/compra/view/CompraFormData.tsx:159-189 | a present id keeps the length; its line gets the summed quantity, the new price and a subtotal of the sum times the new price. An absent id appends one new line at the end. Every other line is unchanged |
| CompraForm.AddToCart | src/sections/compra/view/CompraFormData.tsx:143-196 | no product, a price <= 0 or a quantity <= 0 only set their banner, checked in that order, with the cart unchanged; an accepted add merges and resets the input row |
| CompraForm.MergeValid | src/sections/compra/view/CompraFormData.tsx:159-189 | merging keeps one line per id and every subtotal equal to quantity times price |
| CompraForm.AddToCartValid | src/sections/compra/view/CompraFormData.tsx:143-196 | every add, accepted or not, keeps the cart invariant |
| CompraForm.MergeQuantity | src/sections/compra/view/CompraFormData.tsx:159-189 | per-id units after a merge: the added units land on the selected id, and every other id's units are unchanged |
| CompraForm.MergeTotal | src/sections/compra/view/CompraFormData.tsx:159-189 | the total after an add: plus the new line's amount, or minus the merged line's old subtotal plus its re-priced one |
| CompraForm.MergeAllOneLine | src/sections/compra/view/CompraFormData.tsx:159-176 | repeated adds of one product give one line with the summed quantity and the last entered price |
| CompraForm.RemoveLine | src/sections/compra/view/CompraFormData.tsx:198-200 | the id is gone, every other line is kept, and an absent id changes nothing |
| CompraForm.RemoveLineValid | src/sections/compra/view/CompraFormData.tsx:198-200 | removing a present id deletes exactly its line with the order of the rest kept, keeps the cart valid, and lowers the total by that subtotal |
| CompraForm.SetQuantity | src/sections/compra/view/CompraFormData.tsx:202-216 | a quantity below 1 is a no-op; otherwise only the matching line changes, to that quantity with a subtotal at its own price |
| CompraForm.SetQuantityValid | src/sections/compra/view/CompraFormData.tsx:202-216 | quantity edits keep the invariant and move the total by exactly the line's change |
| CompraForm.SetPrice | src/sections/compra/view/CompraFormData.tsx:218-232 | a negative price is a no-op; otherwise only the matching line changes, to that price with a subtotal at its own quantity |
| CompraForm.SetPriceValid | src/sections/compra/view/CompraFormData.tsx:218-232 | price edits keep the invariant and move the total by exactly the line's change |
| CompraForm.Clear | src/sections/compra/view/CompraFormData.tsx:434 | "Vaciar" leaves an empty, valid cart with total 0; nothing else in the dialog changes |
| CompraForm.Details | src/sections/compra/view/CompraFormData.tsx:251-255 | one detail per line, in order, with id, quantity and purchase price |
| CompraForm.Submit | src/sections/compra/view/CompraFormData.tsx:238-262 | accepted exactly when the cart is non-empty and a supplier is chosen, with the empty cart reported first; the payload has status "Completado", the supplier, the user and one detail per line in order |
| CompraForm.DetailsAmount | src/sections/compra/view/CompraFormData.tsx:251-255 | the details are worth the cart's sum of quantity times price |
| CompraForm.SubmitMatchesTotal | src/sections/compra/view/CompraFormData.tsx:234-262 | the posted details are worth exactly the displayed total |
| VentaForm.Entries | src/sections/venta/view/VentaFormData.tsx:92-104 | one entry per quality of a product, in order |
| VentaForm.FlattenIndex | src/sections/venta/view/VentaFormData.tsx:91-105 | flattening yields one entry per (product, quality) pair: pair (i, k) sits at the count of earlier pairs plus k |
| VentaForm.Flatten | src/sections/venta/view/VentaFormData.tsx:91-105 | the nested loop yields exactly one entry per (product, quality) pair |
| VentaForm.FlattenCovers | src/sections/venta/view/VentaFormData.tsx:91-105 | every flattened entry comes from some (product, quality) pair |
| VentaForm.FlattenAppend | src/sections/venta/view/VentaFormData.tsx:91-105 | flattening distributes over concatenated responses |
| VentaForm.Catalogue | src/sections/venta/view/VentaFormData.tsx:107-109 | the picker lists exactly the flattened entries with stock > 0 |
| VentaForm.CatalogueAppend | src/sections/venta/view/VentaFormData.tsx:89-109 | the catalogue of a concatenated response is the concatenation of the catalogues, so order is kept |
| VentaForm.Total | src/sections/venta/view/VentaFormData.tsx:211-213 | `calcularTotal`: zero for an empty cart, and in a valid cart the sum of quantity times price over the lines |
| VentaForm.Open | src/sections/venta/view/VentaFormData.tsx:72-82 | opening empties the cart and clears the product, the technician and the banner, and resets quantity to 1 |
| VentaForm.ProductsLoaded | src/sections/venta/view/VentaFormData.tsx:84-114 | a response installs the in-stock catalogue, where every entry has positive stock; a failure only sets the load banner |
| VentaForm.Fits | src/sections/venta/view/VentaFormData.tsx:134-160 | with one line per id, the stock check passes exactly when the units of that id already in the cart plus the entered units do not exceed the entry's stock |
| VentaForm.Merge | src/sections/venta/view/VentaFormData.tsx:138-176 | a present id keeps the length; its line takes the found line's quantity plus the new units, at its own price and stock. An absent id appends one line with the catalogue price and stock. Every other line is unchanged |
| VentaForm.AddToCart | src/sections/venta/view/VentaFormData.tsx:131-180 | no product does nothing; a merged or new quantity above the entry's stock only sets the banner, with the cart unchanged; otherwise it merges and resets the input row |
| VentaForm.AddToCartValid | src/sections/venta/view/VentaFormData.tsx:131-180 | with the quantity input >= 1 and the lines' stock agreeing with the entry, every add keeps one line per id and `1 <= cantidad <= stock` |
| VentaForm.MergeQuantity | src/sections/venta/view/VentaFormData.tsx:138-176 | per-id units after an accepted add: the added units land on the selected id, and every other id is unchanged |
| VentaForm.SetQuantity | src/sections/venta/view/VentaFormData.tsx:186-209 | below 1 or an absent id is a no-op; above the line's stock only the banner is set; otherwise only that line changes and the banner clears |
| VentaForm.SetQuantityValid | src/sections/venta/view/VentaFormData.tsx:186-209 | quantity edits keep the stock invariant and move the total by exactly the line's change |
| VentaForm.RemoveLine | src/sections/venta/view/VentaFormData.tsx:182-184 | the id is gone, every other line is kept, and an absent id changes nothing |
| VentaForm.RemoveLineValid | src/sections/venta/view/VentaFormData.tsx:182-184 | removing a present id deletes exactly its line with the order of the rest kept, keeps the invariant, and lowers the total by its subtotal |
| VentaForm.Clear | src/sections/venta/view/VentaFormData.tsx:392 | "Vaciar" leaves an empty, valid cart with total 0; nothing else changes |
| VentaForm.Details | src/sections/venta/view/VentaFormData.tsx:222-226 | one detail per line, in order, with id, quantity and unit price |
| VentaForm.Submit | src/sections/venta/view/VentaFormData.tsx:215-233 | refused exactly when the cart is empty; otherwise one detail per line in order, with the technician when one is chosen and null otherwise |
| VentaForm.DetailsAmount | src/sections/venta/view/VentaFormData.tsx:222-226 | the details are worth the cart's sum of quantity times price |
| VentaForm.SubmitMatchesTotal | src/sections/venta/view/VentaFormData.tsx:211-233 | the posted details are worth exactly the displayed total |
| ProductoForm.AddCalidad | src/sections/product/view/ProductoFormData.tsx:106-135 | no quality chosen, or a quality already listed, raises its alert with the form unchanged; otherwise exactly one row is appended at the end and the inputs reset to none, 0 and 0 |
| ProductoForm.AddCalidadValid | src/sections/product/view/ProductoFormData.tsx:112-129 | quality ids stay pairwise distinct after every add |
| ProductoForm.RemoveCalidad | src/sections/product/view/ProductoFormData.tsx:137-139 | the id is gone, other rows are kept, and an absent id changes nothing |
| ProductoForm.RemoveCalidadValid | src/sections/product/view/ProductoFormData.tsx:137-139 | removal keeps ids distinct and deletes exactly the row at the id's index |
| ProductoForm.Submit | src/sections/product/view/ProductoFormData.tsx:141-160 | accepted exactly when a product is chosen and a row exists, with the missing product reported first; the request lists every row's quality id, price and stock in order |
| ProductoForm.SubmitDistinct | src/sections/product/view/ProductoFormData.tsx:141-160 | from a valid form the posted quality ids are pairwise distinct |
| ProductoForm.Close | src/sections/product/view/ProductoFormData.tsx:77-86 | closing clears the product, the list, the selection and the inputs |
| Asistente.Initial | src/sections/asistente/index.tsx:27-34 | the log starts with the single bot greeting, well formed and idle, with suggestions visible |
| Asistente.CanSend | src/sections/asistente/index.tsx:49 | a message may be sent exactly when the trimmed input is not empty and no request is in flight |
| Asistente.Send | src/sections/asistente/index.tsx:48-70 | a blank input or a request in flight changes nothing; otherwise the untrimmed user message and one placeholder are appended, the input clears and loading is set |
| Asistente.BotText | src/sections/asistente/index.tsx:82 | `respuesta` if truthy, else `message` if truthy, else the apology; never empty |
| Asistente.ReplyText | src/sections/asistente/index.tsx:78-101 | a failure gives the fixed error text, an answer gives the fallback chain, and the bot text is never empty |
| Asistente.Complete | src/sections/asistente/index.tsx:72-105 | after either outcome: not loading, no placeholder left, the earlier messages kept in order, and exactly one bot message appended |
| Asistente.SendValid | src/sections/asistente/index.tsx:48-70 | sending keeps at most one placeholder, as the last message while loading |
| Asistente.SendAccepted | src/sections/asistente/index.tsx:51-70 | an accepted send appends the user's message, then the placeholder |
| Asistente.DropPlaceholder | src/sections/asistente/index.tsx:78 | filtering by id 'loading' removes exactly the placeholder after a placeholder-free log and a user message |
| Asistente.CompleteLog | src/sections/asistente/index.tsx:78-101 | after completion the log is the filtered log followed by exactly one bot message |
| Asistente.ExchangeAppendsTwo | src/sections/asistente/index.tsx:48-105 | a full exchange from an idle log appends exactly the user message and the bot message |
| Asistente.SuggestionsHiddenAfterExchange | src/sections/asistente/index.tsx:303 | after a send, and after its reply, the suggestions are hidden |
| Asistente.KeyPress | src/sections/asistente/index.tsx:108-113 | any other key, or Shift+Enter, changes nothing; Enter with a sendable input appends exactly the user message and the placeholder and starts the request; the log stays well formed either way |
| Asistente.UseSuggestion | src/sections/asistente/index.tsx:115-123 | a chip fills the input and leaves the log and the flag alone, keeps the log well formed and the chips' visibility, and a chip's text is sendable exactly when no request is in flight |
| CompraLista.EstadoColor | src/sections/compra/lista.tsx:205-216 | ignoring case: completado is success, pendiente is warning, cancelado is error (each both ways); 'default' exactly for any other status |
| CompraLista.EstadoTexto | src/sections/compra/lista.tsx:218-229 | every status is shown as its upper-case form; in particular the known statuses give COMPLETADO, PENDIENTE and CANCELADO |
| CompraLista.NewPurchaseStatus | src/sections/compra/view/CompraFormData.tsx:258 | the status new purchases are created with shows as success and "COMPLETADO" |
| VentaLista.EstadoColor | src/sections/venta/lista.tsx:116-127 | exact match: completada is success, pendiente is warning, cancelada is error (each both ways); 'default' for anything else |
| VentaLista.HelpersDisagree | src/sections/venta/lista.tsx:116-127 | 'Completada' and the purchase spelling 'completado' are 'default' for the sale list; the purchase list does not know 'completada' and accepts 'Pendiente', which the sale list does not |
| VentaLista.QueryParams | src/sections/venta/lista.tsx:65 | no parameters exactly for 'todos'; otherwise only `estado`, set to the filter value |
| VentaLista.FilterOptionsColored | src/sections/venta/lista.tsx:141-145 | every filter option other than 'todos' becomes an `estado` parameter the colour helper recognises |
| Overview.Join | src/sections/overview/view/overview-analytics-view.tsx:63 | the template literal: year, '-', month, '-', day, each field whole at its offset |
| Overview.Two | src/sections/overview/view/overview-analytics-view.tsx:60-61 | two digits that read back as the number |
| Overview.FormatFecha | src/sections/overview/view/overview-analytics-view.tsx:58-64 | the year's rendering, '-', two digits reading as month index + 1, '-', and two digits reading as the day |
| Overview.ParseFecha | src/sections/overview/view/overview-analytics-view.tsx:58-64 | reading a date string back needs exactly ten characters with '-' at positions 4 and 7 |
| Overview.FormatFechaRoundTrip | src/sections/overview/view/overview-analytics-view.tsx:58-64 | a four-digit year gives ten characters that read back as the same date |
| Overview.Weekday | src/sections/overview/view/overview-analytics-view.tsx:72 | `getDay()` lies in 0..6 |
| Overview.SemanaActual | src/sections/overview/view/overview-analytics-view.tsx:67-81 | the week starts on a Sunday, ends six days later, and contains today |
| Overview.Desde | src/sections/overview/view/overview-analytics-view.tsx:74 | the week's start bound is midnight, 0 ms into the Sunday |
| Overview.Hasta | src/sections/overview/view/overview-analytics-view.tsx:78 | the week's end bound lies on the Saturday, 23 h 59 min 59 s 999 ms into the day |
| Overview.WeekdayFromSunday | src/sections/overview/view/overview-analytics-view.tsx:72-73 | k days after a Sunday the weekday is k |
| Overview.SameWeekIffWithin | src/sections/overview/view/overview-analytics-view.tsx:67-81 | a day has today's week exactly when it lies between that week's Sunday and Saturday |
| Overview.WithinBoundsIffDay | src/sections/overview/view/overview-analytics-view.tsx:74-78 | the bounds after `setHours` contain exactly the instants whose day lies in the week |

## Left out

- Network and persistence: every axios request, `localStorage` and sign-in.
  Server responses and the stored user id are parameters (`Option` for a
  missing value, `Reply.Failed` or `None` for a failed request). Server-side
  error messages are not modelled.
- The supplier and technician fetches (`obtenerProveedores`,
  `obtenerTecnicos`): their lists only feed the pickers, and their failure
  banners ('Error al cargar proveedores', 'Error al cargar técnicos') are
  not modelled, because the network is a parameter and neither list enters
  a cart or a payload. `CompraForm.Error` and `VentaForm.Error` have no
  constructor for them.
- The purchase dialog's product fetch (`obtenerProductos` in
  CompraFormData.tsx): it flattens the catalogue with no stock filter and
  sets 'Error al cargar productos' on failure. Only the sale dialog's fetch
  is modelled (`VentaForm.Flatten`, `VentaForm.ProductsLoaded`); the
  purchase cart takes the selected entry as a parameter.
- The search box's filtering of the pickers: it only narrows what is
  displayed.
- Floating point: prices are JavaScript numbers shown with `toFixed(2)`.
  Here they are integers, and display rounding is not modelled.
- React scheduling: `useState` and `useEffect` timing, stale closures and
  re-renders. Each handler is one atomic transition. In particular, `Send`
  and `Complete` are the halves of `enviarMensaje` before and after its
  `await`.
- `Date`: the civil calendar, time zones and daylight saving.
  `Overview.FormatFecha` takes the fields `getFullYear`, `getMonth` and
  `getDate` return. Days are numbers counted from 1970-01-01, and a day is
  86,400,000 ms. The conversion of the week's bounds into calendar fields for
  the statistics query is not modelled.
- Message ids and timestamps: an id is either 'loading' or a `Date.now()`
  value, given as a parameter. The greeting's id '1' is taken as the value 1.
  Scrolling and focus are not modelled.
- Text.Lower: maps ASCII letters only, so the label result covers ASCII
  status strings; JavaScript's full Unicode case mapping is not modelled.
- Text.Upper: raises ASCII letters only, for the same reason as
  `Text.Lower`.
- Text.QuantityInput: `parseInt` itself is not modelled; its result is the
  parameter, with NaN as `None`. The product dialog's price and stock fields
  take what the user types and are not modelled.
- VentaForm.AddToCartValid: assumes the selected catalogue entry reports the
  same stock the cart's lines recorded. Opening the dialog does not clear
  the product list, and the new list replaces it only when the request
  succeeds, so an add made from the previous opening's entries before the
  reload resolves, or after it fails, can break the stock guard. That window
  belongs to React scheduling and the network, both left out.
- The purchase dialog's selection effect: choosing a product resets the
  purchase price to 0 (CompraFormData.tsx, the `useEffect` on the selected
  product), so an add straight after a selection is refused until a price is
  typed. `CompraForm.Form` keeps the selection and the price as independent
  fields, and every property holds for all their combinations.
- The PDF generator, the CRUD dialogs, `getInitials`, the sale list's
  `toUpperCase` label, table rendering, routing and layout: these are UI or
  thin wrappers over libraries, with no list logic.
