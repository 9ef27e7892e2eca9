# MainController of the demo chat / photo-carousel app

This project models the one piece of logic in the repository: the Angular
`MainController` in `src/scripts/app.js`. It owns a small view-model and
reacts to user actions and timer events:

- the carousel page (guarded to 1..10);
- the image URL built from the valid width, the valid height and the page;
- three mutually exclusive tabs (Chat, Photos, Settings);
- a chat transcript that only grows;
- a blinking "unread" notice on the Chat tab, started by incoming messages
  and stopped when Chat is selected.

Files:

- `wrappers.dfy`: `Option`. `None` stands for JavaScript's `undefined`.
- `js_strings.dfy` (module `JsStrings`): the JavaScript built-ins the
  controller relies on, for the values it passes them:
  - `IntToString` is `String(n)` for an integral number of magnitude below
    10^21 (see "## Left out" for larger ones);
  - `ParseDecimal` reads such a rendering back, as `parseInt` does;
  - `ReplaceFirst` is `String.prototype.replace` with a string pattern, which
    replaces only the first occurrence.
- `app.dfy` (module `App`): the ranges, the view-model, the views, the URL
  template and class `MainController`. The class fields are the controller's
  mutable state:
  - `model` is `$scope.model`;
  - `views` is `$scope.views`, as a sequence in key order;
  - `blinkInterval` is `self.blinkInterval`, true while a timer handle is
    stored;
  - `chatContainer` lists the messages appended to the chat container node;
  - `imageUrl` is `$scope.imageUrl`.

  Each handler is a method whose postcondition gives the whole new state.
  `Valid()` says the view keys never change. `Consistent()` is what the
  handlers preserve:
  - at most one tab is active;
  - no blink timer runs while Chat is active;
  - the page is within its range;
  - the URL matches the model.

  The module ends with client methods that replay the unit tests' scenarios
  against the contracts only.

Two behaviours of the code that a reader might not expect, and that the model
keeps:

- `moveToPage` returns `undefined` (`None`) after a successful move, because
  src/scripts/app.js:33-35 has no `return`. It returns `false`
  (`Some(false)`) when the page is out of range.
- The code keeps only one direction of the blink invariant: no blink timer
  runs while Chat is active (`Consistent`). Chat can be inactive with no
  blink running until a message arrives.

## Model

| member | source | states |
|---|---|---|
| `JsStrings.NatToString` | src/scripts/app.js:98-100 | the decimal text that `replace` puts in for a non-negative number is non-empty and all digits, and has no leading zero unless it is "0" |
| `JsStrings.IntToString` | src/scripts/app.js:98-100 | the text of an integral number is digits with a leading minus sign exactly when the number is negative, so it never contains a `%` |
| `JsStrings.NatToStringRoundTrip` | src/scripts/app.js:111 | reading the digits of a rendered non-negative number gives the number back |
| `JsStrings.IntToStringRoundTrip` | src/scripts/app.js:111 | reading a rendered integer gives the integer back, so `parseInt` leaves an integer model value of magnitude below 10^21 as it is |
| `JsStrings.IntToStringInjective` | src/scripts/app.js:97-100 | two different numbers never render to the same text |
| `JsStrings.ReplaceFirstAt` | src/scripts/app.js:97-100 | `replace` substitutes the occurrence of the placeholder that no earlier `%` precedes, and keeps the text around it |
| `JsStrings.ReplaceFirstAbsent` | src/scripts/app.js:97-100 | `replace` leaves a text in which the placeholder occurs nowhere unchanged |
| `App.RangeOf` | src/scripts/app.js:14 | each dimension's default lies within its own min and max |
| `App.FillWidth` | src/scripts/app.js:98 | replacing `%width%` in the template puts the width right after the host and leaves the other placeholders |
| `App.FillHeight` | src/scripts/app.js:99 | once the width is in, replacing `%height%` puts the height after the next `/` |
| `App.FillNumber` | src/scripts/app.js:100 | replacing `%number%` puts the page after `/sports/` |
| `App.FillTemplate` | src/scripts/app.js:8 | filling `%width%`, `%height%` and `%number%` in turn yields `http://lorempixel.com/` + width + `/` + height + `/sports/` + page, provided width and height bring no `%` |
| `App.ImageUrlInjective` | src/scripts/app.js:97-100 | two URLs are equal only when their widths, heights and pages are, so the URL tells pages and sizes apart |
| `App.InitialImageUrl` | src/scripts/app.js:189-190 | at start the URL is `http://lorempixel.com/640/480/sports/1` |
| `App.SelectTab` | src/scripts/app.js:43-46 | every tab keeps its key and is active exactly when its key equals the selected one |
| `App.SelectTabActiveCount` | src/scripts/app.js:43-46 | with distinct keys, a known key leaves exactly one tab active and an unknown key leaves none |
| `App.SelectControllerTab` | src/scripts/app.js:43-48 | on the views `Chat`, `Photos`, `Settings`: the keys stay, exactly one tab is active for one of these three keys and none for any other, and Chat is active exactly for `"Chat"` |
| `App.MainController.constructor` | src/scripts/app.js:14-20 | the initial model, views, empty transcript, no blink timer and the start URL; the state is consistent |
| `App.MainController.GetValidValue` | src/scripts/app.js:110-113 | the result lies in the key's range; it is the model's value exactly when that value is in range, and otherwise the default |
| `App.MainController.SetImageUrl` | src/scripts/app.js:96-101 | the replace chain sets the URL to `http://lorempixel.com/` + valid width + `/` + valid height + `/sports/` + page (`ImageUrl`); nothing else changes |
| `App.MainController.MoveToPage` | src/scripts/app.js:28-35 | out of range: returns `false` and changes nothing; in range: sets only the page, rebuilds the URL and returns `undefined` |
| `App.MainController.SetActiveTab` | src/scripts/app.js:43-52 | the views become `SelectTab` of the old ones (one active for a known key, none otherwise); the blink timer is cleared exactly when Chat ends up active |
| `App.MainController.AddMessageToChatWindow` | src/scripts/app.js:153-173 | an empty text leaves the transcript unchanged; any other is appended with its sender flag |
| `App.MainController.SendMessage` | src/scripts/app.js:58-61 | the pending message is appended as sent by this user unless empty, the message is reset to "" and no other model field changes |
| `App.MainController.KeyPressProxy` | src/scripts/app.js:67-72 | key 13 behaves as `SendMessage`; any other key changes nothing |
| `App.MainController.NotifyUser` | src/scripts/app.js:129-133 | a blink timer is stored afterwards iff one already was or Chat is inactive, so a second call changes nothing |
| `App.MainController.OnMessage` | src/scripts/app.js:181-184 | a non-empty incoming text is appended as not sent by this user, then the user is notified |

## Left out

- `toggleSettings` (src/scripts/app.js:78-90) only toggles CSS classes on DOM
  nodes and touches no controller state.
- `startChatting` (src/scripts/app.js:119-123) is not modelled. Its
  3000 ms timer and its `Date().toUTCString()` text are browser services.
  Each tick of that timer is a call of `OnMessage` with some text.
- Subscribing the handler with `$scope.$on` (src/scripts/app.js:181) is not
  modelled. `OnMessage` is the subscribed handler, as a plain method.
- `blinkChatTab` (src/scripts/app.js:139-144) is not modelled as a timer. Its
  700 ms class toggle is not modelled; starting it is `blinkInterval`
  becoming true.
- DOM node construction, CSS class names and scrolling in
  `addMessageToChatWindow` (src/scripts/app.js:159-172) are not modelled. The
  container keeps only the text and the sender flag of each message.
- The lazy lookup of the container node is not modelled as a field. The node
  has been looked up exactly when the transcript is non-empty.
- JavaScript Numbers are modelled as unbounded integers. `String(n)` writes
  a magnitude of 10^21 or more in exponent notation (`"1e+21"`), and
  `parseInt` of such a number reads only its leading digits. Integers beyond
  2^53 are not held exactly either. Neither effect is modelled. A client that
  assigns such a page to `model` directly and then calls `setImageUrl` gets
  `/sports/1e+21` from the code and the full digits from `ImageUrl`;
  `moveToPage` can never set such a page. `GetValidValue` is not affected:
  both readings are out of range and give the default.
- `App.MainController.GetValidValue`: width and height are integers, on
  which `parseInt` is the identity below 10^21 (`IntToStringRoundTrip`). The leniency of
  `parseInt` on strings (whitespace, signs, trailing text) and its `NaN` are
  not modelled. A `NaN` fails both comparisons and would fall through to the
  default.
- `App.MainController.MoveToPage`: pages are integers. Fractional or
  non-numeric pages are not modelled.
- `JsStrings.ReplaceFirst`: the `$` patterns that `replace` interprets in a
  replacement text are not modelled. The controller only substitutes number
  renderings, which contain no `$`.
- Edits to `model` made by the page's two-way bindings are not controller
  operations. Clients may assign `model` directly, as the unit tests do. The
  URL then stays stale until the next `setImageUrl`.
- `self.chatMessageInteval` (src/scripts/app.js:11) is only the feed timer's
  period, and the feed timer is not modelled.
