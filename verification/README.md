# Virtual Factory AI dashboard: a Dafny model of its component logic

This project models the event-handler and rendering logic of the Virtual
Factory AI dashboard, a React single-page application. The model covers:

- the command palette's filter, cursor and key rules;
- the chat transcript and its submit handler;
- the mouse-trail particle buffer;
- the main app's settings panel and its localStorage persistence;
- the view router and boot flag;
- the sign-in dialog and the settings page;
- the sidebar's mobile menu;
- the machine specification panel, preview section and example gallery;
- the canvas glow lookup;
- the header's search and fullscreen button;
- the two hero sections;
- the AI environment context and the AI status badge.

There is one Dafny module per component, plus module `Js` for the few
JavaScript built-ins the components rely on:

- `String.prototype.trim` with its whitespace set;
- `toLowerCase` on ASCII letters;
- `includes`;
- `Number.prototype.toString` on the integers `Date.now()` returns;
- an `Option` type;
- localStorage as a `map<string, string>`.

A component whose state changes step by step is a class. Its `useState`
variables are fields, and each handler is a method whose postcondition gives
the whole new state. A component whose logic is a pure expression is a set of
functions with named results.

The browser and the network appear in the model as follows:

- The fetch of the chat is an outcome parameter: response text, or a thrown failure.
- Clock readings (`Date.now()`) are `nat` parameters.
- `Math.random()` is a `real` parameter in [0, 1).
- The window width is an `int` parameter.
- The document's "dark" class and fullscreen element are boolean fields or parameters.
- A callback such as `onSearch`, `onExecute`, `onClose`, `onViewChange` or `onGenerate`
  becomes the value the method returns: an `Option` holding the argument passed, or a
  `closeRequested` flag.
- Timers (the 2000 ms boot delay, the 700 ms ripple, the 1000 ms particle expiry)
  are explicit events: `BootTimerFired`, `RippleTimerFired` and `Expire`.

The command palette's cursor is a JavaScript number. ArrowDown on an empty
filtered list computes `x % 0`, which is NaN. The model keeps that path as
the cursor value `NaN`: the arrows do not require a non-empty list.

## Model

| member | source | states |
|---|---|---|
| CommandPalette.FilterCommands | src/components/CommandPalette.tsx:54-58 | the result is an order-preserving subsequence of the table; a command is in it iff its lower-cased title or description includes the lower-cased search |
| CommandPalette.Matches | src/components/CommandPalette.tsx:55-57 | the filter's test of one command; the empty search matches every command |
| CommandPalette.Filtered | src/components/CommandPalette.tsx:54-58 | the shown list is an order-preserving subsequence of the five commands holding exactly the matching ones |
| CommandPalette.EmptySearchKeepsAll | src/components/CommandPalette.tsx:54-58 | an empty search keeps all five commands in table order |
| CommandPalette.KeepAllWhenAllMatch | src/components/CommandPalette.tsx:54-58 | when every command matches, the filter returns the list unchanged |
| CommandPalette.SearchCaseInsensitive | src/components/CommandPalette.tsx:56-57 | lower-casing the search leaves the filtered list unchanged |
| CommandPalette.SameMatchesSameFilter | src/components/CommandPalette.tsx:56-57 | two searches with the same lower case filter alike |
| CommandPalette.JsRem | src/components/CommandPalette.tsx:74 | JavaScript `%` on a non-negative dividend and positive divisor is the remainder in [0, n) |
| CommandPalette.MoveDown | src/components/CommandPalette.tsx:72-75 | with no items, or from NaN, the cursor becomes NaN; an in-range cursor stays in range; the last index wraps to 0 |
| CommandPalette.MoveUp | src/components/CommandPalette.tsx:76-79 | with no items, or from NaN, the cursor becomes NaN; an in-range cursor stays in range; index 0 wraps to the last |
| CommandPalette.ArrowsWrap | src/components/CommandPalette.tsx:72-79 | on n > 0 items, ArrowDown from the last goes to 0 and otherwise adds 1; ArrowUp from 0 goes to n-1 and otherwise subtracts 1 |
| CommandPalette.ArrowsInverse | src/components/CommandPalette.tsx:72-79 | Down then Up, and Up then Down, return to the same index |
| CommandPalette.ArrowsOnEmptyOrNaN | src/components/CommandPalette.tsx:74-78 | with no items both arrows give NaN; NaN stays NaN |
| CommandPalette.ArrowsKeepFit | src/components/CommandPalette.tsx:72-79 | the arrows keep the cursor in range, or 0 or NaN on an empty list |
| CommandPalette.Selected | src/components/CommandPalette.tsx:82 | `filteredCommands[selectedIndex]` is defined iff the cursor is an in-range index, and is then that command |
| CommandPalette.Palette.constructor | src/components/CommandPalette.tsx:50-52 | the palette mounts with an empty search and the cursor at 0 |
| CommandPalette.Palette.SetOpen | src/components/CommandPalette.tsx:60-65 | opening resets the search to "" and the cursor to 0; any other change keeps both |
| CommandPalette.Palette.EditSearch | src/components/CommandPalette.tsx:125-128 | typing replaces the search and resets the cursor to 0 |
| CommandPalette.Palette.KeyDown | src/components/CommandPalette.tsx:67-91 | closed: nothing changes. Arrows move the cursor. Enter executes the selected id (when onExecute exists) and closes, only if an item is selected. Escape closes without executing. Other keys do nothing |
| CommandPalette.Palette.ClickItem | src/components/CommandPalette.tsx:158-161 | a row click executes that row's id when onExecute exists, and closes |
| CommandPalette.Palette.BackdropClick | src/components/CommandPalette.tsx:106-113 | a backdrop click closes and executes nothing |
| CommandPalette.Palette.Render | src/components/CommandPalette.tsx:97-164 | nothing while closed; otherwise one row per filtered command, highlighted iff it is at the cursor |
| CommandPalette.AtMostOneHighlighted | src/components/CommandPalette.tsx:154 | at most one rendered row is highlighted |
| ChatInterface.Reply | src/components/ChatInterface.tsx:55-71 | the assistant message is the response text with id now+1, or the fixed error text with id now+2 |
| ChatInterface.SendDisabled | src/components/ChatInterface.tsx:149 | the send button is enabled iff the input is not blank and no request is in flight |
| ChatInterface.QuickPromptsShown | src/components/ChatInterface.tsx:123 | quick prompts are shown iff the transcript has at most one message |
| ChatInterface.QuickPromptsOnlyAtStart | src/components/ChatInterface.tsx:123 | in a mounted chat the quick prompts are offered iff the transcript is the greeting alone |
| ChatInterface.ChatSession.constructor | src/components/ChatInterface.tsx:18-29 | the transcript starts with the greeting, id "1"; the input is empty; not generating |
| ChatInterface.ChatSession.SetInput | src/components/ChatInterface.tsx:144 | typing sets the input; the transcript and flag are kept |
| ChatInterface.ChatSession.ChooseQuickPrompt | src/components/ChatInterface.tsx:123-130 | choosing a quick prompt sets the input to it |
| ChatInterface.ChatSession.Submit | src/components/ChatInterface.tsx:36-47 | a blank input or a request in flight, exactly when the send button is disabled, changes nothing. Otherwise exactly one user message with the trimmed input is appended and the flag is set; the prompt sent is that trimmed text |
| ChatInterface.ChatSession.Settle | src/components/ChatInterface.tsx:49-76 | exactly one assistant reply is appended; then the input is cleared and the flag reset |
| ChatInterface.ChatSession.HandleSubmit | src/components/ChatInterface.tsx:36-76 | an accepted submit grows the transcript by a user and an assistant message, keeps earlier messages, and ends idle with an empty input; a rejected one changes nothing |
| ChatInterface.Answer | src/components/ChatInterface.tsx:55-71 | the text shown for an outcome: the response text, or the error text |
| ChatInterface.Shown | src/components/ChatInterface.tsx:89-112 | the rendered transcript lists each message's role and text, one entry per message, in order |
| ChatInterface.DialogueAt | src/components/ChatInterface.tsx:46-71 | entry 2k of the expected dialogue is the k-th question and entry 2k+1 its answer |
| ChatInterface.AskAndAnswer | src/components/ChatInterface.tsx:36-76 | one more accepted and answered submit adds its question/answer pair to the shown dialogue |
| ChatInterface.Conversation | src/components/ChatInterface.tsx:36-76 | after any run of accepted submits the transcript shows the greeting followed by each trimmed question and its answer, in order |
| MouseTrail.ColorIndex | src/components/MouseTrail.tsx:43 | `Math.floor(Math.random() * 3)` is a valid palette index |
| MouseTrail.KeepLast | src/components/MouseTrail.tsx:54 | `slice(-14)` keeps the last min(n, 14) elements in order |
| MouseTrail.WithoutId | src/components/MouseTrail.tsx:58 | the filter keeps a particle iff its id differs from the expired one, never grows the buffer, and keeps increasing ids increasing |
| MouseTrail.WithoutIdKeepsOthers | src/components/MouseTrail.tsx:58 | the survivors are a subsequence of the buffer, and each particle with another id survives exactly as often as it occurred, none with the expired id |
| MouseTrail.AppendAndCut | src/components/MouseTrail.tsx:52-55 | appending and cutting keeps at most 14 palette-coloured particles, with ids increasing and below the counter |
| MouseTrail.NewestLast | src/components/MouseTrail.tsx:52-55 | the new particle is the last one in the buffer |
| MouseTrail.ExpireAbsent | src/components/MouseTrail.tsx:57-59 | expiring an id no longer in the buffer changes nothing |
| MouseTrail.ExpireRemovesAt | src/components/MouseTrail.tsx:57-59 | with increasing ids, expiry removes exactly the particle with that id and keeps the rest in order |
| MouseTrail.ExpireHead | src/components/MouseTrail.tsx:57-59 | with increasing ids, the oldest particle's expiry removes exactly the head of the buffer |
| MouseTrail.Trail.constructor | src/components/MouseTrail.tsx:24-35 | enabled iff the width exceeds 768; empty buffer; counter 0 |
| MouseTrail.Trail.Resize | src/components/MouseTrail.tsx:24-35 | enabled iff the width exceeds 768; re-enabling restarts the throttle clock; the buffer and counter are kept |
| MouseTrail.Trail.ResizeAsWritten | src/components/MouseTrail.tsx:24-35 | as the component does it: re-enabling also resets the id counter to 0 |
| MouseTrail.Trail.Move | src/components/MouseTrail.tsx:38-55 | a move is dropped when disabled or within 35 ms, leaving lastTime unchanged. Otherwise a particle is appended with the counter's id and a palette colour, the buffer is cut to 14, and the counter increments |
| MouseTrail.Trail.Expire | src/components/MouseTrail.tsx:57-59 | the particle's timer removes its id from the buffer |
| MouseTrail.Trail.Render | src/components/MouseTrail.tsx:66-71 | disabled renders nothing; enabled renders the buffer |
| MouseTrail.ReenableReusesId | src/components/MouseTrail.tsx:34 | with the component's resize handling, two live particles share id 0 |
| MouseTrail.ReusedIdExpiresBoth | src/components/MouseTrail.tsx:58 | the first particle's expiry then removes both |
| App.Toggle | src/App.tsx:102-103 | the key is negated and the other five are kept |
| App.ToggleTwice | src/App.tsx:102-103 | toggling a key twice restores the record |
| App.ToggleCommutes | src/App.tsx:102-103 | toggles of two keys commute |
| App.SettingsExtensional | src/App.tsx:30-37 | two records with the same six switches are the same record |
| App.DefaultsOn | src/App.tsx:80-87 | by default every switch is on except developer mode and the compact layout |
| App.Label | src/App.tsx:104-138 | every switch has a non-empty label for its toast |
| App.LabelsDistinct | src/App.tsx:104-138 | the six labels differ, so the toast names the switch that was flipped |
| App.ValuesRoundTrip | src/App.tsx:30-37 | the six switches and their list of values convert into each other without loss |
| App.DecodeEncodeFields | src/App.tsx:91-99 | the body of the stored JSON text reads back as the values written |
| App.Decode | src/App.tsx:91 | any text that decodes is exactly the encoding of the decoded record |
| App.DecodeEncode | src/App.tsx:91-99 | decoding what JSON.stringify wrote gives back the record |
| App.EncodeIsObject | src/App.tsx:99 | the stored text opens and closes with a brace |
| App.EncodeInjective | src/App.tsx:99 | different records are stored as different texts |
| App.Load | src/App.tsx:89-92 | nothing stored gives NothingStored; stored text that is a record's encoding loads that record; any other text throws |
| App.PersistThenLoad | src/App.tsx:89-100 | a store written by the persist effect loads back the same record |
| App.SettingsPanel.constructor | src/App.tsx:80-100 | mounting with nothing stored gives the defaults, written back. A stored record is loaded and the store is left as it was. Unparsable text fails the load. The dark class then follows darkMode |
| App.SettingsPanel.ToggleSetting | src/App.tsx:94-105 | a checkbox flips its key; the dark class follows darkMode; the store holds the new record, which loads back; the toast names the switch |
| App.RenderView | src/App.tsx:379-395 | "chat", "settings" and "factory" select their views; every other id selects the home view |
| App.Shell.constructor | src/App.tsx:361-362 | the app starts on "home" and booting |
| App.Shell.BootTimerFired | src/App.tsx:368 | the boot timer ends booting and keeps the view |
| App.Shell.SetActiveView | src/App.tsx:391-409 | navigation sets the view and keeps the boot flag |
| App.Shell.Screen | src/App.tsx:403-417 | the boot screen shows while booting, then the routed view |
| App.Shell.HandleLogout | src/App.tsx:373-377 | logout shows its toast and changes no state |
| AuthModal.Welcome | src/components/AuthModal.tsx:26-28 | the success toast reads "Account created!" iff signing up, "Welcome back!" otherwise |
| AuthModal.RecordSession | src/components/AuthModal.tsx:24-25 | the store gains the auth flag "true" and the email; every other key is kept |
| AuthModal.FormFor | src/components/AuthModal.tsx:53-88 | the heading, submit label and switch label follow the mode |
| AuthModal.SwitchOffersOtherMode | src/components/AuthModal.tsx:77-88 | the switch link offers the other mode's action |
| AuthModal.Dialog.constructor | src/components/AuthModal.tsx:11-14 | the dialog starts in sign-in mode with empty fields |
| AuthModal.Dialog.SetOpen | src/components/AuthModal.tsx:7 | the parent's isOpen changes; the fields are kept |
| AuthModal.Dialog.SetEmail | src/components/AuthModal.tsx:61 | typing sets the email only |
| AuthModal.Dialog.SetPassword | src/components/AuthModal.tsx:69 | typing sets the password only |
| AuthModal.Dialog.SwitchMode | src/components/AuthModal.tsx:85 | the link flips the mode and keeps the fields |
| AuthModal.Dialog.Submit | src/components/AuthModal.tsx:16-34 | an empty field shows the error and changes nothing. Otherwise the session is recorded, the mode's toast is shown, onClose is called and the fields are cleared |
| AuthModal.Dialog.Render | src/components/AuthModal.tsx:36-90 | closed renders nothing; open renders the mode's form |
| AuthModal.SwitchTwice | src/components/AuthModal.tsx:85 | two flips restore the mode |
| AuthModal.WhitespaceIsAccepted | src/components/AuthModal.tsx:19-25 | the handler does not trim: a password of spaces only, with an email, passes the check and the user is recorded |
| SettingSection.Loaded | src/components/SettingSection.tsx:17-22 | a truthy stored value replaces the default; otherwise the default stays |
| SettingSection.LoadedTheme | src/components/SettingSection.tsx:11-21 | a truthy "vf-theme" is the theme; otherwise the default "dark" |
| SettingSection.LoadedModel | src/components/SettingSection.tsx:12-22 | a truthy "vf-model" is the model; otherwise the default "gpt-5" |
| SettingSection.BoolText | src/components/SettingSection.tsx:42 | String(b) is never empty and reads back as b through the `=== "true"` test |
| SettingSection.LoadedAnimations | src/components/SettingSection.tsx:19-23 | a truthy stored "vf-anim" gives true iff it is "true"; otherwise true |
| SettingSection.LoadedDark | src/components/SettingSection.tsx:25 | the class is removed on load iff the stored theme is exactly "light" |
| SettingSection.LoadedDarkMatchesTheme | src/components/SettingSection.tsx:21-25 | the class set on load agrees with the theme loaded |
| SettingSection.Save | src/components/SettingSection.tsx:40-43 | saving writes the model and String(animations); the theme key and every other key are kept |
| SettingSection.SaveThenLoad | src/components/SettingSection.tsx:17-43 | saving then loading restores a non-empty model, the animation switch and the theme |
| SettingSection.EmptyModelNotRestored | src/components/SettingSection.tsx:22-41 | an empty model name reloads as the default "gpt-5" |
| SettingSection.Page.constructor | src/components/SettingSection.tsx:11-26 | mounting loads each setting from its own key over the defaults and sets the class |
| SettingSection.Page.ToggleTheme | src/components/SettingSection.tsx:29-37 | a theme pick shows the ripple, removes the class iff "light", sets and stores the theme |
| SettingSection.Page.RippleTimerFired | src/components/SettingSection.tsx:31 | the ripple timer hides the ripple and changes nothing else |
| SettingSection.Page.SetAnimations | src/components/SettingSection.tsx:87 | the switch sets the flag and writes nothing |
| SettingSection.Page.SaveSettings | src/components/SettingSection.tsx:40-43 | the save button writes the model and switch |
| SettingSection.SaveAndRemount | src/components/SettingSection.tsx:16-43 | after a theme pick and a save, a remount shows that theme, model and switch |
| Sidebar.IdsDistinct | src/components/Sidebar.tsx:10-16 | the five menu ids are distinct |
| Sidebar.AtMostOneActive | src/components/Sidebar.tsx:130 | at most one item is active |
| Sidebar.IsActive | src/components/Sidebar.tsx:130 | an active menu item is the only item whose id is the active view |
| Sidebar.Nav.constructor | src/components/Sidebar.tsx:19-31 | mounting runs the resize check: mobile iff the width is below 768, menu closed |
| Sidebar.Nav.CheckMobile | src/components/Sidebar.tsx:24-29 | mobile iff the width is below 768; a wide window closes the menu |
| Sidebar.Nav.NavClick | src/components/Sidebar.tsx:36-41 | onViewChange gets the item's id; the menu closes in mobile mode and is untouched on the desktop |
| Sidebar.Nav.MenuButton | src/components/Sidebar.tsx:46-50 | the menu button flips the open flag |
| Sidebar.Nav.BackdropClick | src/components/Sidebar.tsx:79-84 | the backdrop closes the menu |
| Sidebar.Nav.HoverStart | src/components/Sidebar.tsx:137 | hovering marks the item |
| Sidebar.Nav.HoverEnd | src/components/Sidebar.tsx:138 | leaving clears the mark |
| Sidebar.Nav.Hidden | src/components/Sidebar.tsx:93-96 | the sidebar is slid out iff mobile with the menu closed |
| Sidebar.Nav.BackdropShown | src/components/Sidebar.tsx:79 | the backdrop shows iff the menu is open |
| Sidebar.Nav.Buttons | src/components/Sidebar.tsx:128-191 | each button is active iff it is the view, glows iff active or hovered, and has a tooltip iff on the desktop and hovered |
| Sidebar.MobileNavigation | src/components/Sidebar.tsx:36-41 | a mobile nav click navigates and leaves the sidebar hidden |
| MachineSpecsPanel.ToggleSection | src/components/MachineSpecsPanel.tsx:22-24 | after a click the section is open iff it was not; no other section is open |
| MachineSpecsPanel.ToggleTwice | src/components/MachineSpecsPanel.tsx:22-24 | two clicks restore the state unless another section was open, which ends all collapsed |
| MachineSpecsPanel.NumberedSteps | src/components/MachineSpecsPanel.tsx:158-164 | step i is shown with the number i+1 |
| MachineSpecsPanel.StepNumbersConsecutive | src/components/MachineSpecsPanel.tsx:158-164 | the numbers start at 1 and increase by one |
| MachineSpecsPanel.Badge | src/components/MachineSpecsPanel.tsx:79 | "Robotic System" iff a robot, "Aerial Vehicle" iff a drone |
| MachineSpecsPanel.TabClick | src/components/MachineSpecsPanel.tsx:46-65 | each tab passes its own category, distinct from the others |
| MachineSpecsPanel.SectionBody | src/components/MachineSpecsPanel.tsx:100-164 | "description" shows the description, "specifications" the specification list, any other section the assembly steps numbered from 1 in order |
| MachineSpecsPanel.Panel.constructor | src/components/MachineSpecsPanel.tsx:20 | the description section starts open |
| MachineSpecsPanel.Panel.Toggle | src/components/MachineSpecsPanel.tsx:22-24 | a section click applies the single-open rule |
| MachineSpecsPanel.Panel.Render | src/components/MachineSpecsPanel.tsx:26-170 | no machine renders only the placeholder; otherwise name, badge, five tabs and three sections, with a body only for the open one |
| MachineSpecsPanel.AtMostOneOpen | src/components/MachineSpecsPanel.tsx:100-156 | at most one section body is rendered |
| MachineDisplay.CanvasType | src/components/MachineDisplay.tsx:63 | the canvas gets the record's type, or null without a record |
| MachineDisplay.Display.constructor | src/components/MachineDisplay.tsx:23-24 | no section expanded; the tab is "overview" |
| MachineDisplay.Display.Toggle | src/components/MachineDisplay.tsx:26-28 | the same single-open rule as the specs panel |
| MachineDisplay.Display.SelectTab | src/components/MachineDisplay.tsx:123 | a tab change sets the tab |
| MachineDisplay.Display.Render | src/components/MachineDisplay.tsx:37-218 | nothing iff no record and not generating. The overlay shows iff generating. The info panel shows iff there is a record and no generation, with its name, description and type, counts equal to the list lengths, and numbered steps |
| MachineDisplay.StepCountMatchesNumbering | src/components/MachineDisplay.tsx:167-218 | the last step's number equals the step count shown |
| MachineGallery.ExampleIdsDistinct | src/components/MachineGallery.tsx:17-65 | the six example ids are distinct |
| MachineGallery.Record | src/components/MachineGallery.tsx:81-88 | the type is drone iff the lower-cased name contains "drone". Name and description are copied. Tags are the category, "AI-Generated", "Industrial" |
| MachineGallery.DroneExampleIsDrone | src/components/MachineGallery.tsx:26-31 | the "Autonomous Drone" example is recorded as a drone |
| MachineGallery.KindIgnoresCase | src/components/MachineGallery.tsx:84 | names equal up to case get the same type |
| MachineGallery.Gallery.constructor | src/components/MachineGallery.tsx:73-79 | nothing hovered, nothing selected |
| MachineGallery.Gallery.HoverStart | src/components/MachineGallery.tsx:164 | hover marks the card's id |
| MachineGallery.Gallery.HoverEnd | src/components/MachineGallery.tsx:165 | leaving clears the mark |
| MachineGallery.Gallery.CardClick | src/components/MachineGallery.tsx:173 | a card click selects the example's record and opens the modal |
| MachineGallery.Gallery.TryClick | src/components/MachineGallery.tsx:292 | the button passes the example's name to onSelectExample, and the bubbling click also selects its record |
| MachineGallery.Gallery.CloseModal | src/components/MachineGallery.tsx:361 | closing clears the selection and closes the modal |
| MachineGallery.Gallery.ModalOpen | src/components/MachineGallery.tsx:360 | the modal is open iff a record is selected |
| MachineGallery.Gallery.Hovered | src/components/MachineGallery.tsx:178 | a card animates iff it is the hovered one |
| MachineGallery.AtMostOneHovered | src/components/MachineGallery.tsx:178 | at most one card is hovered |
| MachineCanvas.GlowColor | src/components/MachineCanvas.tsx:22-34 | null or "" gives the default. A known lower-cased name gives its table entry. An unknown one gives the default. The result is always the default or a table value |
| MachineCanvas.GlowIgnoresCase | src/components/MachineCanvas.tsx:33 | names equal up to case give the same glow |
| MachineCanvas.CyanIsDefault | src/components/MachineCanvas.tsx:31 | "cyan" gives the same glow as no colour |
| MachineCanvas.Index | src/components/MachineCanvas.tsx:33 | indexing the object literal with one of its own keys yields that key's string |
| MachineCanvas.GlowColorAsWritten | src/components/MachineCanvas.tsx:22-34 | as the component does it: null or "" gives the default |
| MachineCanvas.AsWrittenAgrees | src/components/MachineCanvas.tsx:22-34 | except for inherited member names, the component's lookup equals GlowColor |
| MachineCanvas.ConstructorIsNotAColor | src/components/MachineCanvas.tsx:33 | "Constructor" yields the Object constructor instead of a colour |
| DashboardHeader.ToggleRequest | src/components/DashboardHeader.tsx:35-45 | the button requests fullscreen iff none is active, and exits otherwise |
| DashboardHeader.After | src/components/DashboardHeader.tsx:35-45 | once a request has succeeded the document is fullscreen iff the request was to enter |
| DashboardHeader.ToggleFlips | src/components/DashboardHeader.tsx:35-45 | a successful toggle flips the document's fullscreen state |
| DashboardHeader.IconFor | src/components/DashboardHeader.tsx:111 | the Minimize icon iff fullscreen |
| DashboardHeader.Header.constructor | src/components/DashboardHeader.tsx:13-14 | empty query, not fullscreen |
| DashboardHeader.Header.SetQuery | src/components/DashboardHeader.tsx:94 | typing sets the query |
| DashboardHeader.Header.FullscreenChanged | src/components/DashboardHeader.tsx:17-19 | the flag mirrors whether the document has a fullscreen element |
| DashboardHeader.Header.HandleSearch | src/components/DashboardHeader.tsx:27-33 | onSearch is called iff the query is not blank and a callback exists. It receives the untrimmed query, which is then cleared. Otherwise the query is kept |
| DashboardHeader.SearchOnce | src/components/DashboardHeader.tsx:27-33 | a second submit without typing never reaches onSearch |
| DashboardHeader.ToggleAndNotify | src/components/DashboardHeader.tsx:16-45 | after a toggle and its change event the flag, and so the icon, flips |
| HeroSection.Submit | src/components/HeroSection.tsx:15-20 | onGenerate is called iff the query is not blank, with the untrimmed query |
| HeroSection.Disabled | src/components/HeroSection.tsx:117 | the button is disabled iff generating or the handler would not call onGenerate |
| HeroSection.ButtonLabel | src/components/HeroSection.tsx:120-130 | "Generating..." iff generating |
| HeroSection.EnabledButtonGenerates | src/components/HeroSection.tsx:15-117 | an enabled button always generates with the typed text; a query that does not generate leaves the button disabled |
| HeroSection.HandlerIgnoresGenerating | src/components/HeroSection.tsx:15-20 | the handler would pass on a non-blank query even while generating; only the button blocks it |
| HeroSection.PaddedQueryKept | src/components/HeroSection.tsx:17-18 | " x " is passed on with its spaces |
| HeroSectionEnhanced.ButtonLabel | src/components/HeroSectionEnhanced.tsx:119-127 | "Generating..." iff generating |
| HeroSectionEnhanced.LabelsDifferWhenIdle | src/components/HeroSectionEnhanced.tsx:119-127 | the two hero buttons read alike iff generating |
| HeroSectionEnhanced.EnabledButtonGenerates | src/components/HeroSectionEnhanced.tsx:15-116 | the same submit rule and disabled predicate as the plain section: an enabled button generates; a query that does not generate is blank |
| AIEnvironmentContext.Intensity | src/context/AIEnvironmentContext.tsx:17-18 | low 0.4, critical 2, fast 1.8, normal 1 |
| AIEnvironmentContext.Provider.constructor | src/context/AIEnvironmentContext.tsx:15 | the mode starts as normal |
| AIEnvironmentContext.Provider.SetMode | src/context/AIEnvironmentContext.tsx:15 | setMode sets the mode |
| AIEnvironmentContext.Provider.Value | src/context/AIEnvironmentContext.tsx:17-21 | the context value's intensity always matches its mode |
| AIEnvironmentContext.InitialEnvironment | src/context/AIEnvironmentContext.tsx:15-21 | a fresh provider offers normal mode at intensity 1 |
| AIEnvironmentContext.IntensityOrdered | src/context/AIEnvironmentContext.tsx:17-18 | intensities are positive, ordered low < normal < fast < critical, and distinct |
| AIEnvironmentContext.UseAIEnvironment | src/context/AIEnvironmentContext.tsx:27-30 | the hook throws its message iff there is no provider, and otherwise returns the provider's value |
| AIStatusIndicator.MessageLine | src/components/AIStatusIndicator.tsx:69-71 | the message line shows iff a non-empty message is given |
| AIStatusIndicator.Render | src/components/AIStatusIndicator.tsx:10-75 | idle renders nothing. Processing gives the Brain/cyan config and "AI Processing". Complete gives the CheckCircle/green config and "Complete". The pulse shows iff processing |
| AIStatusIndicator.VisibleStatusesDistinct | src/components/AIStatusIndicator.tsx:12-75 | the two visible badges differ in icon, colour, label and pulse |
| AIStatusIndicator.StatusRoundTrip | src/components/AIStatusIndicator.tsx:67-75 | the status can be read back from any rendered badge |
| Js.TrimStartSuffix | src/components/ChatInterface.tsx:38 | trimming the start keeps a suffix that starts with non-whitespace, and drops only whitespace |
| Js.TrimEndPrefix | src/components/ChatInterface.tsx:38 | trimming the end keeps a prefix that ends with non-whitespace, and drops only whitespace |
| Js.TrimIsMaximalSlice | src/components/ChatInterface.tsx:43 | trim() returns a slice of the input with no whitespace at either end, and cuts only whitespace |
| Js.BlankIffAllWhitespace | src/components/ChatInterface.tsx:38 | `!s.trim()` holds iff s is all whitespace |
| Js.Trim | src/components/ChatInterface.tsx:38-43 | trim() never lengthens a string, and a non-empty result starts and ends with non-whitespace |
| Js.IsBlank | src/components/ChatInterface.tsx:38 | "" is blank, and a string starting with non-whitespace is not |
| Js.StoredAfterWrite | src/components/SettingSection.tsx:17-22 | after setItem the key reads back as truthy iff the value is non-empty, and other keys read as before |
| Js.ToLower | src/components/CommandPalette.tsx:56-57 | toLowerCase maps A-Z to a-z and keeps every other character |
| Js.ToLowerIdempotent | src/components/CommandPalette.tsx:56-57 | lower-casing twice equals lower-casing once |
| Js.Includes | src/components/CommandPalette.tsx:56-57 | includes is true iff the substring occurs at some index |
| Js.NatToString | src/components/ChatInterface.tsx:41 | Date.now().toString() is a non-empty digit string without a leading zero |
| Js.ParseNatToString | src/components/ChatInterface.tsx:41 | the decimal string reads back as the number |
| Js.NatToStringInjective | src/components/ChatInterface.tsx:58-66 | distinct clock readings give distinct message ids |

## Left out

- Three.js scenes, the `useFrame` animation in src/App.tsx and the canvas
  contents of MachineCanvas: floating-point animation and library calls. Only
  the glow lookup is modelled.
- Animation props, class names, icons and layout: presentation only.
- The mount effect of src/App.tsx:364-366 adds the document's "dark" class
  and hides the body's overflow. The shell does not model either.
  `App.SettingsPanel.constructor` takes the class as it finds it (`dark0`),
  so that effect running first changes none of its promises.
- AuthModal.Dialog.SetEmail, AuthModal.Dialog.Submit and AuthModal.WhitespaceIsAccepted:
  the email field is an `<input type="email">`. The browser strips its
  surrounding whitespace and blocks the submit for a non-empty value that is
  not an email address. Neither is modelled: `SetEmail` receives the value
  after the browser's sanitising, and `Submit` assumes the browser's own
  validation has already let the form through.
- Toast notifications are modelled only as the title or text a handler
  returns. The toast library's queueing and timing are left out.
- The export, share and save buttons of MachineDisplay only show toasts.
  `ExportToast` gives the text, with no contract.
- The fullscreen promises of DashboardHeader and their `console.error`
  logging. A failed request is not modelled; `ToggleFlips` assumes the request
  succeeds.
- The chat's `console.error`, message timestamps and scrolling into view.
  Message ids are modelled from the clock parameters. Their uniqueness is
  not claimed: `Date.now()` may repeat.
- `JSON.parse` on stored text other than the exact text `JSON.stringify`
  writes. Such text is modelled as the load throwing. This includes valid
  JSON with other spacing or key order, which the component would accept.
- `toLowerCase` is modelled for ASCII letters only. Other characters are kept
  unchanged, whereas JavaScript also lower-cases other alphabets.
- The particle positions and colours come from the mouse event and
  `Math.random()`, which are parameters. Timer scheduling is left out: each
  1000 ms expiry is the explicit `Expire` event, in any order.
- MouseTrail.Trail.ResizeAsWritten: its contract keeps only the bound on the
  buffer and the palette colours (`Bounded`). With the counter reset, the
  increasing-id invariant no longer holds.
- The logout button of DashboardHeader, the close buttons of AuthModal and
  the gallery modal's contents only hand a click to the parent's callback.
- The window's resize and keydown listener registration and removal. Each
  handler is a method called on the event it listens to.
- The canvas props `modelUrl` and `machineType` are not part of the glow
  lookup. They are not modelled.
- The accordion sections of MachineDisplay are no longer rendered.
  `Display.Toggle` models the state change only.

## Findings

| source | as written | input that shows it | evidently intended | confidence | as-written member | corrected member |
|---|---|---|---|---|---|---|
| src/components/MachineCanvas.tsx:24-33 | the colour table is a plain object literal, so indexing it also reaches the members every object inherits | promptColor "Constructor" lower-cases to "constructor", which yields the Object constructor (truthy) instead of a colour string. The component's only caller, src/components/MachineDisplay.tsx:61-64, never passes promptColor, so the dashboard as shipped always shows the default glow and does not hit this | unknown names, including inherited member names, fall back to the default glow | not executed; follows from JavaScript property lookup | MachineCanvas.ConstructorIsNotAColor | MachineCanvas.GlowColor |
| src/components/MouseTrail.tsx:31-35 | re-enabling the trail re-runs the effect, which restarts `particleId` at 0 while earlier particles are still in the buffer | one move at width 1024, a resize to 500 and back to 1024, then another move: both particles have id 0, and the first one's expiry removes both | ids stay unique for the life of the component, so each expiry removes one particle | not executed; follows from the effect's dependency on isEnabled | MouseTrail.ReusedIdExpiresBoth | MouseTrail.Trail.Resize |

In MachineGallery, the "Try This Machine" button sits inside the clickable
card and does not stop the click from propagating. The click that reaches
`onSelectExample` therefore also opens the gallery modal.
`MachineGallery.Gallery.TryClick` models both effects.
