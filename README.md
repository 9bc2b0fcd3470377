# qxl.dialog core, modelled in Dafny

This project models three pieces of the qooxdoo dialog library and its bundled framework classes:

- **`qxl.dialog.Dialog`**: the base class of every dialog. A dialog is a modal window. It is created hidden. `show()` can raise it above every open window and block the content below it. It blurs the focused widget on `show()` and gives that widget the focus back on `hide()`. It delivers the user's answer (OK or Cancel, from a button or the Escape key) to a callback that fires at most once, unless it throws (see "## Left out"). `promise()` is an adapter over that callback.
- **`qx.bom.media.Abstract`**: the wrapper around a native audio or video element. It has setter/getter pairs over the element's fields. `setPreload` accepts only valid hints. When the element's `loop` field was falsy at the time it was wrapped, `setLoop` emulates looping with a "replay when ended" listener.
- **`qx.ui.virtual.cell.AbstractImage`**: the image cell renderer. It resolves a cell value to image metadata (url, size, tooltip) and renders it as an `img` or `div` fragment.

Files:

- `wrappers.dfy`: `Option` and `Result`.
- `js.dfy`: the JavaScript values the code inspects, their truthiness, `||` and `String(v)`.
- `dialog_spec.dfy`: module `DialogSpec`. The dialog's lifecycle state as a datatype, one function per operation (`AfterShow`, `AfterHide`, `AfterOk`, `AfterCancel`, `AfterPromise`, `AfterEscape`), and lemmas that relate several operations.
- `dialog.dfy`: module `Dialog`. The class `Dialog`, whose methods update its fields in place. Each method is proved against the matching `DialogSpec` function. The module also holds the class-wide blocker override (`DialogStatics`) and `getInstanceByType`.
- `media.dfy`: module `Media`. The native element (`MediaElement`), the wrapper (`Abstract`), and the loop bookkeeping as a function with lemmas.
- `image_cell.dfy`: module `ImageCell`. The renderer as pure functions over oracle collaborators.

How the environment appears in the model:

- `Show` takes the host's state as arguments: the root's z-index, the z-indices of the open windows, and the focused widget.
- `Recenter` takes the document size (`qx.bom.Document.getWidth()`/`getHeight()`) and the dialog's measured bounds.
- `HandleEscape` takes the key code, whether the dialog has a content element, and whether it is seeable (`isSeeable()`). Only a visible dialog can be seeable, and `HandleEscape` requires exactly that. So a hidden dialog ignores Escape even though its listener on the root stays registered (`EscapeIgnoredWhileHidden`).
- Callbacks, contexts, widgets and media streams are opaque identities.
- What the dialog does to the outside world is recorded in its state: blur/focus requests, fired events, callback invocations and promise states.

Where the source's own doc comments and its code disagree, the model follows the code:

- The doc comment of `cancelOnEscape` (`source/class/qxl/dialog/Dialog.js:270-271`) says Escape cancels only when `allowCancel` is also true. `_handleEscape` (lines 581-585) never reads `allowCancel`. In the model, Escape hides the dialog and fires "cancel" even when `allowCancel` is false; the callback is not called in that case (`EscapeIgnoresAllowCancel`).

With blocking on, `show()` blocks at the highest z-index among the root and the open windows and puts the dialog one above it. With the root at 0 and windows at 5, 8 and 3, the blocker sits at 8 and the dialog at 9 (`ShowBlockingExample`).

Two behaviours of the code are stated as proved facts rather than corrected:

- A second `promise()` before any answer orphans the first promise; it never settles (`SecondPromiseOrphansFirst`).
- Without native loop, calling `setLoop(true)` twice and then `setLoop(false)` leaves the first replay listener registered (`SetLoopTwiceKeepsFirstListener`).

## Model

| member | source | states |
|---|---|---|
| DialogSpec.VisibilityFor | source/class/qxl/dialog/Dialog.js:443-447 | the binding converter gives "visible" exactly for a truthy value, and "excluded" otherwise (never "hidden") |
| DialogSpec.Max | source/class/qxl/dialog/Dialog.js:501 | `Math.max` is an upper bound of both arguments and equals one of them |
| DialogSpec.MaxZIndex | source/class/qxl/dialog/Dialog.js:497-502 | the z-index `show` computes is at least the root's and every window's, and equals the root's or one window's |
| Dialog.TopZIndex | source/class/qxl/dialog/Dialog.js:496-502 | the loop over the open windows computes exactly `MaxZIndex`: at least the root's and every window's z-index |
| DialogSpec.HalfRounded | source/class/qxl/dialog/Dialog.js:199-200 | `Math.round(d/2)` of an integer is the r with 2r-1 <= d <= 2r: nearest, with halves rounded up |
| DialogSpec.CenterMargin | source/class/qxl/dialog/Dialog.js:196-209 | the centering margin is (document size - dialog size)/2 rounded as `Math.round` does |
| DialogSpec.CenterExample | source/class/qxl/dialog/Dialog.js:196-202 | a 400x300 dialog in a 1000x800 document gets margin-left 300 and margin-top 250 |
| DialogSpec.CenterRoundsHalfUp | source/class/qxl/dialog/Dialog.js:199-200 | for an odd difference, the margin is rounded up |
| Dialog.Dialog.Recenter | source/class/qxl/dialog/Dialog.js:196-209 | the resize and appear listeners set both margins to the centering margins and change nothing else |
| DialogSpec.AfterShow | source/class/qxl/dialog/Dialog.js:493-517 | shown; captures the focused widget and asks it to blur; when blocking is on, the dialog sits one above the root and every window, and the blocker sits at the topmost of them; when blocking is off, z-index and blocker are untouched; nothing else changes |
| Dialog.Dialog.Raise | source/class/qxl/dialog/Dialog.js:496-505 | sets the dialog's z-index one above `MaxZIndex` of the root and the windows, and the block level to that maximum; nothing else changes |
| Dialog.Dialog.Show | source/class/qxl/dialog/Dialog.js:493-517 | `show()` changes the dialog exactly as `AfterShow` says, keeps its invariant and returns the dialog itself |
| DialogSpec.AfterHide | source/class/qxl/dialog/Dialog.js:524-536 | hidden; the blocker is released only when blocking is on; the widget captured by the last show is asked to take the focus; nothing else changes |
| Dialog.Dialog.Hide | source/class/qxl/dialog/Dialog.js:524-536 | `hide()` changes the dialog exactly as `AfterHide` says and returns the dialog itself, also without a prior show |
| DialogSpec.HideRefocusesCapturedWidget | source/class/qxl/dialog/Dialog.js:507-533 | show then hide blurs and then refocuses exactly the widget that had the focus at show, and releases the blocker iff blocking is on |
| DialogSpec.HideWithoutShow | source/class/qxl/dialog/Dialog.js:524-536 | hide with no captured widget makes no focus request and hides the dialog |
| DialogSpec.ShowBlockingExample | source/class/qxl/dialog/Dialog.js:494-505 | root 0 and windows at 5, 8, 3 put the dialog at z-index 9 and the blocker at 8 |
| DialogSpec.Resolve | source/class/qxl/dialog/Dialog.js:547 | resolving settles a pending promise with the value and leaves every other promise, and every settled one, as it was |
| DialogSpec.Invoke | source/class/qxl/dialog/Dialog.js:545-548 | calling the callback records exactly one invocation with the context and the argument; a user callback changes nothing else; the resolver also clears the callback and resolves its promise with the argument |
| Dialog.Dialog.InvokeCallback | source/class/qxl/dialog/Dialog.js:545-548 | the callback call changes the dialog exactly as `Invoke` says: the promise resolver clears the callback and resolves its promise; because of the resolver invariant, that promise is then settled with the argument |
| DialogSpec.AfterOk | source/class/qxl/dialog/Dialog.js:555-562 | hides as `hide` does, fires "ok", calls a set callback exactly once with `true`, resolves an installed resolver's promise with `true`, leaves no callback, and changes nothing else |
| Dialog.Dialog.HandleOk | source/class/qxl/dialog/Dialog.js:555-562 | the OK handler changes the dialog exactly as `AfterOk` says |
| DialogSpec.AfterCancel | source/class/qxl/dialog/Dialog.js:568-575 | hides, fires "cancel", calls the callback with no value only when cancelling is allowed and one is set (resolving an installed resolver's promise with no value), leaves no callback, and changes nothing else |
| Dialog.Dialog.HandleCancel | source/class/qxl/dialog/Dialog.js:568-575 | the Cancel handler changes the dialog exactly as `AfterCancel` says |
| DialogSpec.AfterPromise | source/class/qxl/dialog/Dialog.js:543-550 | hands out a new pending promise and installs its resolver in place of any earlier callback; nothing else changes |
| Dialog.Dialog.Promise | source/class/qxl/dialog/Dialog.js:543-550 | `promise()` changes the dialog exactly as `AfterPromise` says and returns the new promise |
| DialogSpec.AfterEscape | source/class/qxl/dialog/Dialog.js:581-585 | a key-up cancels exactly when cancelOnEscape holds, the key is 27, a content element exists and the dialog is seeable; otherwise nothing changes |
| Dialog.Dialog.HandleEscape | source/class/qxl/dialog/Dialog.js:581-585 | the key-up listener changes the dialog exactly as `AfterEscape` says, where `seeable` implies that the dialog is visible |
| DialogSpec.EscapeIgnoresAllowCancel | source/class/qxl/dialog/Dialog.js:581-585 | Escape hides a dialog whose allowCancel is false and fires "cancel" without calling the callback |
| DialogSpec.EscapeIgnoredWhileHidden | source/class/qxl/dialog/Dialog.js:581-585 | a hidden dialog is not seeable, so no key-up changes it |
| DialogSpec.EscapeDisabledIgnoresKeys | source/class/qxl/dialog/Dialog.js:581-585 | with cancelOnEscape false, no key-up changes anything |
| DialogSpec.WellFormedPreserved | source/class/qxl/dialog/Dialog.js:543-575 | every operation keeps the invariant that an installed resolver belongs to a pending promise |
| DialogSpec.NoCallbackNoInvocations | source/class/qxl/dialog/Dialog.js:524-585 | with no callback installed, any sequence of show, hide, OK, Cancel and key-up calls nothing, settles no promise and installs no callback |
| DialogSpec.AnsweredDialogCallsNothing | source/class/qxl/dialog/Dialog.js:555-585 | after OK or Cancel, no later sequence of show, hide, OK, Cancel and key-up calls the callback again or settles a promise |
| DialogSpec.InstalledResolverSettles | source/class/qxl/dialog/Dialog.js:543-575 | under the resolver invariant, OK settles the installed resolver's promise with true; Cancel settles it with no value when cancelling is allowed and leaves it pending otherwise |
| DialogSpec.OkIsSingleShot | source/class/qxl/dialog/Dialog.js:555-562 | after OK, a second OK or Cancel invokes nothing and settles no promise |
| DialogSpec.CancelIsSingleShot | source/class/qxl/dialog/Dialog.js:568-575 | after Cancel, a second OK or Cancel invokes nothing and settles no promise |
| DialogSpec.CancelDisallowedCallsNothing | source/class/qxl/dialog/Dialog.js:571-573 | with allowCancel false, Cancel hides and fires "cancel" but invokes nothing and settles no promise |
| DialogSpec.SettledPromisesStay | source/class/qxl/dialog/Dialog.js:543-550 | a settled promise keeps its value through OK, Cancel and a new promise() |
| DialogSpec.PromiseResolvesOnOk | source/class/qxl/dialog/Dialog.js:555-562 | after promise(), OK resolves that promise with true |
| DialogSpec.PromiseResolvesOnAllowedCancel | source/class/qxl/dialog/Dialog.js:568-575 | after promise(), Cancel with allowCancel resolves that promise with no value |
| DialogSpec.PromisePendingOnDisallowedCancel | source/class/qxl/dialog/Dialog.js:571-574 | after promise(), Cancel without allowCancel leaves the promise pending and the callback cleared |
| DialogSpec.SecondPromiseOrphansFirst | source/class/qxl/dialog/Dialog.js:543-550 | a second promise() overwrites the first resolver: OK resolves the second, and the first stays pending through any later OK or Cancel |
| Dialog.Dialog.constructor | source/class/qxl/dialog/Dialog.js:170-219 | a new dialog is hidden, allows cancel, cancels on Escape, does not block and has no callback unless the settings say so; a message string or the settings' message and image go through their apply methods |
| Dialog.DialogStatics.constructor | source/class/qxl/dialog/Dialog.js:36 | the class-wide blocker override starts off |
| Dialog.DialogStatics.UseBlocker | source/class/qxl/dialog/Dialog.js:44-46 | the static `useBlocker(value)` sets the class-wide override that every dialog's show and hide read |
| Dialog.FirstUp | source/class/qxl/dialog/Dialog.js:55 | raises the first letter and keeps the rest and the length |
| Dialog.GetInstanceByType | source/class/qxl/dialog/Dialog.js:53-59 | succeeds exactly when the capitalised type names a constructible class; otherwise fails with "<type> is not a valid dialog type" |
| Dialog.GetInstanceByTypeUnknown | source/class/qxl/dialog/Dialog.js:53-59 | an unknown type "nope" fails with "nope is not a valid dialog type" |
| Dialog.GetInstanceByTypeKnown | source/class/qxl/dialog/Dialog.js:53-59 | the lower-case type "alert" constructs the class Alert |
| Dialog.Dialog.SetAllowCancel | source/class/qxl/dialog/Dialog.js:443-447 | setting allowCancel shows the cancel button exactly when cancelling is allowed |
| Dialog.Dialog.SetCancelOnEscape | source/class/qxl/dialog/Dialog.js:273-276 | sets cancelOnEscape and nothing else |
| Dialog.Dialog.SetUseBlocker | source/class/qxl/dialog/Dialog.js:292-295 | sets the instance's useBlocker and nothing else |
| Dialog.Dialog.SetCallback | source/class/qxl/dialog/Dialog.js:228-231 | installs or clears the callback and nothing else |
| Dialog.Dialog.SetImage | source/class/qxl/dialog/Dialog.js:461-464 | the image widget shows the value and is visible exactly when the value is truthy |
| Dialog.Dialog.SetMessage | source/class/qxl/dialog/Dialog.js:472-475 | the label shows the value and is visible exactly when the value is truthy |
| Dialog.Dialog.GetDialogContainer | source/class/qxl/dialog/Dialog.js:481-486 | creates the container on the first call and returns that same container on every later call |
| Media.Abstract.constructor | transpiled/qx/bom/media/Abstract.js:59-81 | records whether the element loops natively (truthiness of its loop field), sets its preload hint to "auto" and leaves its other fields alone |
| Media.PreloadValue | transpiled/qx/bom/media/Abstract.js:339-346 | the stored hint is always "none", "metadata" or "auto": the argument when it is one of them, "auto" otherwise |
| Media.PreloadValueIdempotent | transpiled/qx/bom/media/Abstract.js:339-346 | storing the stored hint again gives the same hint |
| Media.Abstract.SetPreload | transpiled/qx/bom/media/Abstract.js:339-355 | writes only the preload field, with `PreloadValue`, so `getPreload` always returns a valid hint |
| Media.AfterSetLoop | transpiled/qx/bom/media/Abstract.js:362-374 | without native loop, `true` registers a new replay listener under a fresh id and records it, and `false` with a recorded id removes that listener and forgets it; with native loop, or for any other value, nothing changes |
| Media.SetLoopRoundTrip | transpiled/qx/bom/media/Abstract.js:364-371 | without native loop, setLoop(true) then setLoop(false) restores the listener registry |
| Media.SetLoopTwiceKeepsFirstListener | transpiled/qx/bom/media/Abstract.js:364-371 | without native loop, setLoop(true) twice then setLoop(false) leaves the first replay listener registered |
| Media.Abstract.SetLoop | transpiled/qx/bom/media/Abstract.js:362-383 | updates the listener bookkeeping as `AfterSetLoop` says, always stores the value in the loop field, and `isLoop` returns its truthiness |
| Media.Abstract.GetMediaObject | transpiled/qx/bom/media/Abstract.js:116-118 | returns the wrapped element; it is null once the wrapper is disposed |
| Media.Abstract.SetId | transpiled/qx/bom/media/Abstract.js:160-171 | writes only the id field, and `getId` reads it back |
| Media.Abstract.SetSource | transpiled/qx/bom/media/Abstract.js:253-264 | writes only the src field, and `getSource` reads it back |
| Media.Abstract.SetSourceObject | transpiled/qx/bom/media/Abstract.js:271-282 | writes only the srcObject field, and `getSourceObject` reads it back |
| Media.Abstract.SetMuted | transpiled/qx/bom/media/Abstract.js:208-219 | writes only the muted field, and `isMuted` reads it back |
| Media.Abstract.SetAutoplay | transpiled/qx/bom/media/Abstract.js:312-323 | writes only the autoplay field, and `getAutoplay` reads it back |
| Media.Abstract.ShowControls | transpiled/qx/bom/media/Abstract.js:289-298 | sets only the controls field, and `hasControls` is then true |
| Media.Abstract.HideControls | transpiled/qx/bom/media/Abstract.js:300-305 | clears only the controls field, and `hasControls` is then false |
| Media.Abstract.Dispose | transpiled/qx/bom/media/Abstract.js:434-451 | empties the element's source, changes no other field of it, then drops the element, so `getMediaObject` returns null |
| ImageCell.ImageSize | transpiled/qx/ui/virtual/cell/AbstractImage.js:77-96 | the size comes from the resource registry if it knows the url, else from the image loader if it has loaded it, else it is 16x16 |
| ImageCell.RegistryBeforeLoader | transpiled/qx/ui/virtual/cell/AbstractImage.js:82-90 | for a url the registry knows, the loader does not matter |
| ImageCell.Normalized | transpiled/qx/ui/virtual/cell/AbstractImage.js:118-122 | a string value becomes the map `{url: value}`; a map is kept |
| ImageCell.ImageInfoOf | transpiled/qx/ui/virtual/cell/AbstractImage.js:117-143 | the url is the alias-resolved url (or null); the tooltip is the input's; truthy width and height are kept; otherwise the size is that of the resolved url |
| ImageCell.UrlStringSizeFromOracles | transpiled/qx/ui/virtual/cell/AbstractImage.js:118-135 | a string value resolves its url, has no tooltip, and takes its size from the oracles |
| ImageCell.ExplicitSizeIgnoresOracles | transpiled/qx/ui/virtual/cell/AbstractImage.js:128-135 | with truthy width and height, hosts that differ only in their size oracles give the same metadata |
| ImageCell.IdentifyImage | transpiled/qx/ui/virtual/cell/AbstractImage.js:159-161 | the abstract `_identifyImage` always throws "_identifyImage is abstract" |
| ImageCell.TitleAttribute | transpiled/qx/ui/virtual/cell/AbstractImage.js:172 | the title attribute is empty exactly when the tooltip is falsy, and is `title="<tooltip>"` otherwise |
| ImageCell.Markup | transpiled/qx/ui/virtual/cell/AbstractImage.js:184-190 | an "img" tag gives a fragment starting with `<img src="`, any other tag one starting with `<div style="`; it ends with the title and the element's end |
| ImageCell.TitleBeforeClosing | transpiled/qx/ui/virtual/cell/AbstractImage.js:172-190 | the title is the only part that depends on it and is inserted just before the element's end |
| ImageCell.GetContent | transpiled/qx/ui/virtual/cell/AbstractImage.js:163-193 | null gives ""; an error of the image identification propagates; otherwise the markup of the decoration of the resolved url and size (`ImageInfoOf`), whose tag picks img or div, ending with the title attribute of the tooltip |
| ImageCell.AbstractGetContentThrows | transpiled/qx/ui/virtual/cell/AbstractImage.js:159-170 | with the abstract `_identifyImage`, every non-null value makes getContent throw |

## Left out

- Widget construction of the dialog (`_createDialogContainer` layout, `_createButtonPane`, `_createOkButton`, `_createCancelButton` icons and object ids, `tr()` translations, the OK button taking the focus on appear) is host-framework UI wiring. The buttons appear only as the triggers `HandleOk` and `HandleCancel`.
- `_createWidgetContent` in the base class only logs an error. The model assumes a dialog variant that has created the image, message and cancel-button widgets. Before the first apply, the image and message widgets have the framework's default visibility, "visible".
- The static shortcuts `alert`, `error`, `warning`, `confirm`, `prompt`, `select` and `form` construct the dialog variants, which are not part of this model.
- Dialog.FirstUp: raises ASCII lower-case letters only. `toUpperCase` also raises non-ASCII letters and can change the length ('ß' becomes "SS"), so the length and rest-of-string clauses hold for ASCII input only.
- `Dialog.GetInstanceByType`: returns the name of the class it would construct, not an instance. The set of constructible class names is a parameter, and capitalisation covers ASCII letters only.
- The `show` property refers to an apply method `_applyShow` that the file does not define, so it is not modelled.
- Listener registration on the root (keyup, resize, appear), `root.add`, `FocusHandler.addRoot`, and the internals of the blocker and the focus handler are host-framework singletons. The model keeps the blocker's block level per dialog, and records blur and focus requests. The Escape listener is never removed in the code; the model does not represent listener lifetime.
- Blur and focus failures are swallowed by the code. The model records the request and has no failure path.
- The blocker's colour and opacity (0.5) are cosmetic; opacity is a floating-point value.
- DialogSpec.AfterOk: always ends with the callback cleared. In the source, `_handleOk` calls the callback and then `resetCallback()` with no try/finally (`source/class/qxl/dialog/Dialog.js:558-561`). A callback that throws propagates the exception out of the handler and stays installed, so a later OK, Cancel or Escape calls it again. The model has no failure path for callbacks, so "at most once" holds only for callbacks that return.
- DialogSpec.AfterCancel: the same as `AfterOk` for `_handleCancel` (lines 571-574). A throwing callback stays installed, and the model does not represent that path.
- Dialog.Dialog.Recenter: `getBounds()` is null before the dialog's first layout, and the listener then throws a TypeError. The model takes measured bounds as arguments and has no null-bounds path.
- Dialog.DialogStatics: the source has one class-wide `__useBlocker` (`source/class/qxl/dialog/Dialog.js:36`, 45). In the model, each dialog refers to its `DialogStatics` object through `statics`, and nothing forces two dialogs to share the same object. The lemmas are about one dialog at a time, and the override is an argument of every spec function.
- Callbacks are opaque: the model records each invocation with its context and argument. What a callback does when called (for instance calling `show` again) is not modelled.
- `resolve(value)` settles the promise at once, as the model does; the `then` reactions that JavaScript runs later are outside the dialog and not modelled.
- Media: `play()` defers through a timer. `pause`, `isPaused`, `isEnded`, `canPlayType`, volume, current time and duration are native playback state or floating-point values. Native event forwarding and its listener registration and removal are DOM plumbing. The `pause()` call in the destructor is part of that playback state.
- Media.Abstract getters and setters (`SetId`, `SetSource`, `SetSourceObject`, `SetMuted`, `SetAutoplay`, `ShowControls`, `HideControls`, `SetPreload`, `SetLoop`, `Dispose` and their getters) require a wrapped element. After `Dispose` sets it to null, the source throws a TypeError on these calls; the model does not include that error path.
- Media: the element stores each field as written, with no HTML attribute reflection. For example, the model does not coerce `loop` to a boolean.
- ImageCell: the resource registry, image loader, alias manager, decoration helpers and style compiler are oracle functions. The style map is passed to them as its width and height values, and the model does not render `width + "px"`. The `states` argument of `getContent` is unused by the code.
- The steps of `DialogSpec.Interaction` share one class-wide blocker override; a change of the override between steps is not part of the multi-step lemmas (it affects only blocking, never callbacks or promises).
- JavaScript numbers are integers in this model; fractional values and NaN are left out.
- transpiled/qx/ui/progressive/headfoot/Progress.js has only floating-point progress, theme lookups and event wiring; transpiled/qx/ui/mobile/form/PasswordField.js only overrides a constant. Neither is modelled.
