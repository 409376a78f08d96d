# Shikimanga client logic in Dafny

Shikimanga is a mock React client for colourising manga panels. Most of its code is markup. This project models the pieces of logic inside its components and proves what they promise:

- the layer stack of the panel editor;
- the colour picker with undo and redo;
- the community gallery's search, filter, sort and featured panel;
- the login and sign-up forms with the password-strength meter;
- the testimonial carousel;
- a gallery card's like counter and menu;
- the theme flags and theme string;
- the post-processing sliders;
- the mock session.

Each component that keeps state has two parts:

- a state record with pure step functions, about which the lemmas are proved;
- a `class` whose fields are the component's state fields and whose handler methods change them. Each handler's `ensures` ties the new state to the step function applied to the old state.

Pure logic is written as functions. Where the source itself works step by step, the model does too:

- the `findIndex` loop;
- the in-place sort;
- the form validators that fill an error record;
- the `+=` construction of the theme string.

Each React handler is one atomic step. Timers, browser storage and randomness are inputs or parameters:

- a `Tick` step stands for the timer;
- the stored user and saved theme flags are optional inputs;
- a `storageFails` flag says whether writing the user to storage throws;
- an `id` parameter stands for the random sign-up id.

Three behaviours of the code that a reader might not expect, kept as written:

- `updateLayerOpacity` stores the opacity unclamped. `OpacityIsNotClamped` exhibits a stored value of 2.
- The transformer's size rule refuses the whole proposed box when either side is below 5. It does not clamp each side on its own.
- The colour picker compares a commit with the last history entry, not with the entry under the cursor. After an undo, re-picking the undone colour is therefore not recorded. The model keeps this behaviour, and `RepickAfterUndoNotRecorded` states it.

Files, one module each:

- `wrappers.dfy`: `Option`.
- `text.dfy`: ASCII character classes, lower-casing and substring search.
- `layered_editor.dfy`
- `color_picker.dfy`
- `community_hub.dfy`
- `form_rules.dfy`: the field rules shared by both forms.
- `login_page.dfy`
- `sign_up_page.dfy`
- `auth_context.dfy`
- `testimonials.dfy`
- `panel_card.dfy`
- `theme_context.dfy`
- `post_process_controls.dfy`

## Model

| member | source | states |
|---|---|---|
| LayeredEditor.Select | src/components/panel-editor/LayeredEditor.tsx:62-64 | Clicking the selected layer clears the selection. Clicking any other layer selects it. |
| LayeredEditor.MapMatching | src/components/panel-editor/LayeredEditor.tsx:93-101 | The `map` by id: layers with the id are transformed and all others are kept. Length and order are preserved. |
| LayeredEditor.Toggled | src/components/panel-editor/LayeredEditor.tsx:92-105 | Visibility flips exactly on the layers with the id. Every other field and every other layer is unchanged. |
| LayeredEditor.ToggledTwice | src/components/panel-editor/LayeredEditor.tsx:92-105 | Toggling the same id twice restores the list. |
| LayeredEditor.WithOpacity | src/components/panel-editor/LayeredEditor.tsx:132-145 | Only `opacity` of the matching layers changes, and it takes the given value. |
| LayeredEditor.WithOpacityLastWins | src/components/panel-editor/LayeredEditor.tsx:132-145 | Of two opacity updates to one layer, the second wins. |
| LayeredEditor.OpacityIsNotClamped | src/components/panel-editor/LayeredEditor.tsx:132-145 | The value is stored as given: 2 stays 2 and -1 stays -1. |
| LayeredEditor.Transformed | src/components/panel-editor/LayeredEditor.tsx:66-86 | The matching layer takes the node's x and y, and width×scaleX and height×scaleY. Its other fields and the other layers are unchanged. |
| LayeredEditor.TransformSettles | src/components/panel-editor/LayeredEditor.tsx:66-89 | Once the absolute size is stored and the scale is reset to 1, reporting the node again changes nothing. Transforms do not compound. |
| LayeredEditor.Removed | src/components/panel-editor/LayeredEditor.tsx:123-124 | No layer with the id remains. Every other layer keeps its multiplicity. |
| LayeredEditor.RemovedAppend | src/components/panel-editor/LayeredEditor.tsx:124 | Removal distributes over concatenation, so the kept layers keep their relative order. |
| LayeredEditor.RemovedAbsent | src/components/panel-editor/LayeredEditor.tsx:124 | Removing an id that is not listed changes nothing. |
| LayeredEditor.RemovedTwice | src/components/panel-editor/LayeredEditor.tsx:123-130 | A second removal of the same id is a no-op. |
| LayeredEditor.FirstIndex | src/components/panel-editor/LayeredEditor.tsx:108 | `findIndex`: -1 exactly when the id is absent. Otherwise the first position holding the id. |
| LayeredEditor.FindIndex | src/components/panel-editor/LayeredEditor.tsx:108 | The search loop returns the first position holding the id, or -1. |
| LayeredEditor.RemoveAt | src/components/panel-editor/LayeredEditor.tsx:116 | `splice(i, 1)` closes the gap: entries before i stay and later ones shift down by one. |
| LayeredEditor.InsertAt | src/components/panel-editor/LayeredEditor.tsx:117 | `splice(i, 0, x)` puts x at i and shifts later entries up by one. |
| LayeredEditor.SpliceNeighbours | src/components/panel-editor/LayeredEditor.tsx:114-117 | Taking an entry out and inserting it at a neighbouring index swaps the two entries. |
| LayeredEditor.SwapPermutes | src/components/panel-editor/LayeredEditor.tsx:114-117 | A swap is a permutation. |
| LayeredEditor.Moved | src/components/panel-editor/LayeredEditor.tsx:107-117 | The result is a permutation. At the boundary the list is unchanged. Otherwise the layer and its neighbour swap and every other position is unchanged. |
| LayeredEditor.AtBoundary | src/components/panel-editor/LayeredEditor.tsx:108-112 | For a present id: at the boundary going up iff the layer is first, going down iff its first occurrence is the last entry. For an absent id (index -1): only going down in an empty list. |
| LayeredEditor.MovedRoundTrip | src/components/panel-editor/LayeredEditor.tsx:107-117 | Moving a layer up and then down restores the list. Moving it down and then up restores it too, unless the layer below has the same id. |
| LayeredEditor.MoveInCopy | src/components/panel-editor/LayeredEditor.tsx:107-117 | The copy-and-move body computes `Moved`. It reports no change exactly at the boundary. |
| LayeredEditor.MovedIsSwap | src/components/panel-editor/LayeredEditor.tsx:114-117 | Any list that swaps the layer with its neighbour and keeps every other position is the result of `moveLayer`. |
| LayeredEditor.BoundBox | src/components/panel-editor/LayeredEditor.tsx:203-209 | The old box is returned when the new width or height is below 5. Otherwise the new box is returned. |
| LayeredEditor.BoundAllMeetsMinimum | src/components/panel-editor/LayeredEditor.tsx:203-209 | From a box of at least 5×5, no sequence of proposals shrinks it below 5 in either dimension. |
| LayeredEditor.TinyBoxRefused | src/components/panel-editor/LayeredEditor.tsx:205-206 | A 3×3 proposal is refused whole. |
| LayeredEditor.Editor.constructor | src/components/panel-editor/LayeredEditor.tsx:36-39 | No selection; the shown list is the `layers` prop. |
| LayeredEditor.Editor.SyncLayers | src/components/panel-editor/LayeredEditor.tsx:44-46 | A new prop replaces the shown list and nothing is reported. |
| LayeredEditor.Editor.HandleSelect | src/components/panel-editor/LayeredEditor.tsx:62-64 | The selection becomes `Select` of the old one. The list is untouched. |
| LayeredEditor.Editor.HandleTransformEnd | src/components/panel-editor/LayeredEditor.tsx:66-86 | The list becomes `Transformed` and is reported once. |
| LayeredEditor.Editor.ToggleLayerVisibility | src/components/panel-editor/LayeredEditor.tsx:92-105 | The list becomes `Toggled` and is reported once. |
| LayeredEditor.Editor.MoveLayer | src/components/panel-editor/LayeredEditor.tsx:107-121 | The list becomes `Moved`. It is reported unless the layer was at the boundary. |
| LayeredEditor.Editor.RemoveLayer | src/components/panel-editor/LayeredEditor.tsx:123-130 | The list becomes `Removed` and is reported. The selection is cleared exactly when it was the removed id. |
| LayeredEditor.Editor.UpdateLayerOpacity | src/components/panel-editor/LayeredEditor.tsx:132-145 | The list becomes `WithOpacity` and is reported once. |
| ColorPicker.Initial | src/components/panel-editor/ColorPicker.tsx:21-24 | The history is `[initialColor]` and the cursor is 0. |
| ColorPicker.Committed | src/components/panel-editor/ColorPicker.tsx:31-38 | A hex equal to the last entry changes nothing. Otherwise the history is cut after the cursor, the hex is appended and the cursor moves onto it. The cursor stays inside the history. |
| ColorPicker.Undone | src/components/panel-editor/ColorPicker.tsx:40-47 | A no-op at index 0. Otherwise the cursor steps back and the colour becomes that entry. |
| ColorPicker.Redone | src/components/panel-editor/ColorPicker.tsx:49-56 | A no-op at the last index. Otherwise the cursor steps forward and the colour becomes that entry. |
| ColorPicker.PresetClicked | src/components/panel-editor/ColorPicker.tsx:107-111 | The preset is shown and then committed. |
| ColorPicker.UndoThenRedo | src/components/panel-editor/ColorPicker.tsx:40-56 | Undo then redo restores the index and shows its entry. |
| ColorPicker.RedoThenUndo | src/components/panel-editor/ColorPicker.tsx:40-56 | Redo then undo restores the index and shows its entry. |
| ColorPicker.CommitClearsRedo | src/components/panel-editor/ColorPicker.tsx:31-38 | After a new colour is committed there is nothing to redo. |
| ColorPicker.CommitThenUndo | src/components/panel-editor/ColorPicker.tsx:31-47 | Undo after a new commit returns to the entry that was current before it. |
| ColorPicker.RepickAfterUndoNotRecorded | src/components/panel-editor/ColorPicker.tsx:33 | Because commits compare with the last entry, re-picking an undone colour is not recorded. The shown colour then differs from the entry under the cursor. |
| ColorPicker.Picker.constructor | src/components/panel-editor/ColorPicker.tsx:21-24 | The state is `Initial(initialColor)`. |
| ColorPicker.Picker.HandleColorChange | src/components/panel-editor/ColorPicker.tsx:26-29 | Only `color` changes, and the hex is reported. |
| ColorPicker.Picker.HandleTextInput | src/components/panel-editor/ColorPicker.tsx:91-94 | Only `color` changes, and the text is reported. |
| ColorPicker.Picker.HandleColorChangeComplete | src/components/panel-editor/ColorPicker.tsx:31-38 | The state becomes `Committed`, with the index invariant kept. |
| ColorPicker.Picker.HandleUndo | src/components/panel-editor/ColorPicker.tsx:40-47 | The state becomes `Undone`. The new colour is reported only when the index moved. |
| ColorPicker.Picker.HandleRedo | src/components/panel-editor/ColorPicker.tsx:49-56 | The state becomes `Redone`. The new colour is reported only when the index moved. |
| ColorPicker.Picker.HandlePresetClick | src/components/panel-editor/ColorPicker.tsx:107-111 | The state becomes `PresetClicked`, and the preset is reported. |
| Text.ToLower | src/pages/CommunityHubPage.tsx:102-105 | `toLowerCase` on ASCII text: same length, and every character lower-cased on its own. |
| Text.Contains | src/pages/CommunityHubPage.tsx:102-105 | `includes`: the empty string and every prefix are included, and nothing longer than the string is. |
| Text.LowerKeepsContains | src/pages/CommunityHubPage.tsx:102-105 | Lower-casing both strings keeps every occurrence, so the case-insensitive search finds every exact match. |
| CommunityHub.MatchesSearch | src/pages/CommunityHubPage.tsx:101-106 | The empty query matches every panel. A query that one of the four fields contains exactly as typed also matches, whatever its case. |
| CommunityHub.Passes | src/pages/CommunityHubPage.tsx:100-112 | A panel passes iff it matches the search and the manga filter is `'all'` or its own manga. Skipping the search for an empty query changes nothing. |
| CommunityHub.Filter | src/pages/CommunityHubPage.tsx:101-111 | Every kept panel is accepted. Each accepted panel keeps its multiplicity and rejected ones vanish. |
| CommunityHub.FilterAppend | src/pages/CommunityHubPage.tsx:101-111 | Filtering a concatenation gives the concatenation of the filtered parts. |
| CommunityHub.Filtered | src/pages/CommunityHubPage.tsx:97-112 | Exactly the panels that pass the search (if a query is given) and the filter (unless `'all'`), with their multiplicities. |
| CommunityHub.LeadingDigits | src/pages/CommunityHubPage.tsx:119 | The leading run of digits that `parseInt` reads: a prefix, all digits, and followed by a non-digit or the end. |
| CommunityHub.DecimalValue | src/pages/CommunityHubPage.tsx:119 | The number a digit run denotes is below ten to the power of its length. |
| CommunityHub.DecimalString | src/pages/CommunityHubPage.tsx:119 | The decimal numeral of a number: at least one digit, only digits, no leading zero unless the number is 0. |
| CommunityHub.DecimalRoundTrip | src/pages/CommunityHubPage.tsx:119 | Reading a number's numeral gives back the number. |
| CommunityHub.NumericId | src/pages/CommunityHubPage.tsx:119 | `parseInt` reads an id of digits only whole; other ids are outside the model (see Left out). |
| CommunityHub.NumericIdOfNumeral | src/pages/CommunityHubPage.tsx:119 | An id that is the numeral of `n` sorts as `n`. |
| CommunityHub.SwapWithPrevious | src/pages/CommunityHubPage.tsx:116 | One exchange of the in-place sort: two neighbours swap and the multiset is kept. |
| CommunityHub.SortDescending | src/pages/CommunityHubPage.tsx:115-120 | After the in-place sort the keys are non-increasing, and the array is a permutation of its old contents. |
| CommunityHub.MostLikedFrom | src/pages/CommunityHubPage.tsx:129 | The `reduce` returns the seed or one of the panels, with likes at least those of every panel. |
| CommunityHub.MostLiked | src/pages/CommunityHubPage.tsx:129 | On a non-empty list: a listed panel with maximal likes. |
| CommunityHub.ApplyFilters | src/pages/CommunityHubPage.tsx:96-132 | The shown list is a permutation of the filtered panels, in non-increasing likes for `'popular'` and non-increasing numeric id for `'recent'`. The featured panel has maximal likes among the shown panels, and under `'popular'` it is the first shown panel. It is left unchanged when nothing is shown. |
| CommunityHub.ShownIffPasses | src/pages/CommunityHubPage.tsx:97-112 | Every shown panel passes the search and the filter, and no passing panel is omitted. |
| CommunityHub.UnfilteredIsPermutation | src/pages/CommunityHubPage.tsx:97-122 | With no query and filter `'all'`, the shown list is a permutation of the mock panels. |
| CommunityHub.MockIdsAreNumbers | src/pages/CommunityHubPage.tsx:14-81 | The mock ids parse as 1 to 6. |
| CommunityHub.Page.constructor | src/pages/CommunityHubPage.tsx:89-93 | The initial state fields: empty query, `'popular'`, `'all'`, every panel shown, the first one featured. |
| CommunityHub.Page.Refresh | src/pages/CommunityHubPage.tsx:96-132 | The effect leaves the page showing what `ApplyFilters` promises. |
| CommunityHub.Page.HandleSearch | src/pages/CommunityHubPage.tsx:134-136 | A new query, then the effect. |
| CommunityHub.Page.HandleSortChange | src/pages/CommunityHubPage.tsx:138-140 | A new sort, then the effect. |
| CommunityHub.Page.HandleFilterChange | src/pages/CommunityHubPage.tsx:142-144 | A new filter, then the effect. |
| FormRules.LooksLikeEmail | src/pages/LoginPage.tsx:26 | `/\S+@\S+\.\S+/.test(email)` (also SignUpPage.tsx:38): a passing text holds an `@` and a `.` and has at least five characters. |
| FormRules.LooksLikeEmailFromParts | src/pages/LoginPage.tsx:26 | Any text of the form any text, non-spaces, `@`, non-spaces, `.`, non-spaces, any text passes the unanchored `\S+@\S+\.\S+` test. |
| FormRules.PartsFromLooksLikeEmail | src/pages/LoginPage.tsx:26 | Every text that passes the test splits in that form. |
| FormRules.NoAtNoEmail | src/pages/SignUpPage.tsx:38 | Text without `@` never passes. |
| FormRules.EmailError | src/pages/LoginPage.tsx:23-29 | An empty e-mail gives "Email is required" and never the format error. A failed pattern gives "Email is invalid". Otherwise there is no error. |
| FormRules.PasswordError | src/pages/LoginPage.tsx:31-37 | Empty gives "Password is required". Under 6 characters gives the length message. No error exactly at 6 or more. |
| LoginPage.ValidateForm | src/pages/LoginPage.tsx:19-41 | Each field holds its rule's single message, and the form is valid iff no error was recorded. |
| LoginPage.HandleSubmit | src/pages/LoginPage.tsx:43-62 | An invalid form returns before login and changes nothing. Otherwise login runs and the success or failure notice follows its outcome. Only success goes home. |
| SignUpPage.UsernameError | src/pages/SignUpPage.tsx:43-49 | Required, then at least 3 characters. No error exactly at 3 or more. |
| SignUpPage.ConfirmError | src/pages/SignUpPage.tsx:59-65 | Required, then equal to the password. |
| SignUpPage.ValidateForm | src/pages/SignUpPage.tsx:26-69 | Each of the four fields holds its rule's message. The form is valid iff no error was recorded, iff all four rules hold. |
| SignUpPage.HandleSubmit | src/pages/SignUpPage.tsx:130-149 | Each of the four fields shows its own rule's message. An invalid form returns before sign-up. Otherwise sign-up runs and the notice and navigation follow its outcome. |
| SignUpPage.PasswordStrength | src/pages/SignUpPage.tsx:71-86 | The score lies in 0..4. It is 0 iff the password is empty. It is capped at 4 when all five criteria hold. |
| SignUpPage.StrengthNeverDrops | src/pages/SignUpPage.tsx:71-86 | Appending characters never lowers the score. |
| SignUpPage.StrengthMeter | src/pages/SignUpPage.tsx:88-128 | Bar i (0..3) is lit iff strength > i, in that strength's colour. The label is shown iff the password is non-empty, and is then the non-empty word for that strength in the colour for its band. |
| AuthContext.EmailPrefix | src/contexts/AuthContext.tsx:44 | `split('@')[0]`: a prefix of the e-mail with no `@`, followed by `@` when shorter than the e-mail. |
| AuthContext.EmailPrefixWithoutAt | src/contexts/AuthContext.tsx:44 | An e-mail without `@` is its own user name. |
| AuthContext.EmailPrefixOfAddress | src/contexts/AuthContext.tsx:44 | For a name without `@`, `name@domain` yields `name`. |
| AuthContext.LoginUser | src/contexts/AuthContext.tsx:42-47 | The invented user has the fixed id, the given e-mail and the e-mail prefix as user name. |
| AuthContext.SignUpUser | src/contexts/AuthContext.tsx:67-72 | The given user name is used when non-empty, and the e-mail prefix otherwise. |
| AuthContext.Mounted | src/contexts/AuthContext.tsx:25-32 | The stored user is restored if there is one, and loading ends either way. |
| AuthContext.LoggedIn | src/contexts/AuthContext.tsx:34-57 | The user is set and loading ends. The call rejects exactly when the storage write throws. |
| AuthContext.SignedUp | src/contexts/AuthContext.tsx:59-82 | The user is set and loading ends. The call rejects exactly when the storage write throws. |
| AuthContext.LoggedOut | src/contexts/AuthContext.tsx:84-87 | The user becomes none. |
| AuthContext.PasswordIgnored | src/contexts/AuthContext.tsx:34-82 | The resulting session never depends on the password. |
| AuthContext.IsAuthenticated | src/contexts/AuthContext.tsx:97 | `!!user`: authenticated exactly when a user is stored, since any user object is truthy. |
| AuthContext.AuthenticatedAfter | src/contexts/AuthContext.tsx:97 | The session is authenticated after login or sign-up and not after logout. |
| AuthContext.Provider.constructor | src/contexts/AuthContext.tsx:22-23 | No user, loading. |
| AuthContext.Provider.Mount | src/contexts/AuthContext.tsx:25-32 | The state becomes `Mounted`. |
| AuthContext.Provider.Login | src/contexts/AuthContext.tsx:34-57 | The state and outcome are those of `LoggedIn`. |
| AuthContext.Provider.Signup | src/contexts/AuthContext.tsx:59-82 | The state and outcome are those of `SignedUp`. |
| AuthContext.Provider.Logout | src/contexts/AuthContext.tsx:84-87 | The state becomes `LoggedOut`. |
| Testimonials.Next | src/components/landing/Testimonials.tsx:53-55 | `(i+1) mod 4`, staying in 0..3. |
| Testimonials.Prev | src/components/landing/Testimonials.tsx:57-61 | 0 goes to 3 and any other i to i-1, staying in 0..3. |
| Testimonials.PrevNextInverse | src/components/landing/Testimonials.tsx:53-61 | `prev(next(i)) = i` and `next(prev(i)) = i`. |
| Testimonials.NextTimesIsModular | src/components/landing/Testimonials.tsx:54 | n presses of next from i land on `(i+n) mod 4`. |
| Testimonials.NextFourTimes | src/components/landing/Testimonials.tsx:54 | Four presses return to the start. |
| Testimonials.StarsFilled | src/components/landing/Testimonials.tsx:118-125 | Star k of 5 is filled iff k < rating. |
| Testimonials.StarsOfTestimonials | src/components/landing/Testimonials.tsx:14-47 | Each testimonial fills at least four stars. The third fills exactly four. |
| Testimonials.Carousel.constructor | src/components/landing/Testimonials.tsx:50-51 | Index 0, autoplay on. |
| Testimonials.Carousel.NextTestimonial | src/components/landing/Testimonials.tsx:53-55 | The index becomes `Next` of the old one and stays in range. |
| Testimonials.Carousel.PrevTestimonial | src/components/landing/Testimonials.tsx:57-61 | The index becomes `Prev` of the old one and stays in range. |
| Testimonials.Carousel.DotClick | src/components/landing/Testimonials.tsx:162 | The index becomes the dot's index, in range. |
| Testimonials.Carousel.Tick | src/components/landing/Testimonials.tsx:63-71 | A timer tick advances the index only while autoplay is on. |
| Testimonials.Carousel.MouseEnter | src/components/landing/Testimonials.tsx:100 | Hovering stops autoplay. |
| Testimonials.Carousel.MouseLeave | src/components/landing/Testimonials.tsx:101 | Leaving restarts autoplay. |
| PanelCard.Initial | src/components/community/PanelCard.tsx:30-39 | `liked = isLiked`, `likeCount = likes`, and the menu is closed. `isLiked` defaults to false, and the gallery never passes it, so a gallery card always starts unliked. |
| PanelCard.Liked | src/components/community/PanelCard.tsx:41-46 | A like flips `liked`. The count rises by 1 on liking and falls by 1 on unliking. |
| PanelCard.MenuToggled | src/components/community/PanelCard.tsx:53-56 | Flips `showMenu` only. |
| PanelCard.MenuClosed | src/components/community/PanelCard.tsx:145-156 | Report and Hide close the menu and touch nothing else. |
| PanelCard.InitialConsistent | src/components/community/PanelCard.tsx:37-38 | The invariant `likeCount = likes + [liked] − [isLiked]` holds at mount. |
| PanelCard.HandlersKeepCount | src/components/community/PanelCard.tsx:41-56 | Every handler preserves that invariant. |
| PanelCard.CountNearGiven | src/components/community/PanelCard.tsx:37-44 | The count stays within one of `likes`, and equals it whenever `liked = isLiked`. |
| PanelCard.LikeTwice | src/components/community/PanelCard.tsx:41-46 | Two likes restore both `liked` and the count. |
| PanelCard.MenuToggleTwice | src/components/community/PanelCard.tsx:53-56 | Two toggles restore the menu. Closing twice is closing once. |
| PanelCard.Card.constructor | src/components/community/PanelCard.tsx:37-39 | The state is `Initial` and the invariant holds. |
| PanelCard.Card.HandleLike | src/components/community/PanelCard.tsx:41-46 | The state becomes `Liked`, keeping the invariant. |
| PanelCard.Card.ToggleMenu | src/components/community/PanelCard.tsx:53-56 | The state becomes `MenuToggled`. |
| PanelCard.Card.CloseMenu | src/components/community/PanelCard.tsx:145-156 | The state becomes `MenuClosed`. |
| ThemeContext.ThemeString | src/contexts/ThemeContext.tsx:46-48 | The string starts with `'dark'` or `'light'` as the dark flag says. It is the bare `'dark'` only for the default flags, and the bare `'light'` only in light mode with no option set. |
| ThemeContext.ComposeTheme | src/contexts/ThemeContext.tsx:46-48 | The `+=` construction yields `ThemeString` of the flags, which is `'dark'` for the defaults. |
| ThemeContext.ParseTheme | src/contexts/ThemeContext.tsx:46-48 | Whatever it accepts is the theme string of the flags it returns. |
| ThemeContext.ParseSuffixes | src/contexts/ThemeContext.tsx:47-48 | Reading back the suffixes keeps the base flag, and the suffixes are exactly those of the flags read. |
| ThemeContext.ParseThemeString | src/contexts/ThemeContext.tsx:46-48 | Reading the flags back from a theme string gives the flags it was built from. |
| ThemeContext.ThemeStringInjective | src/contexts/ThemeContext.tsx:46-48 | Distinct flag triples give distinct theme strings. |
| ThemeContext.DarkModeToggled | src/contexts/ThemeContext.tsx:52 | Flips only the dark flag. |
| ThemeContext.HighContrastToggled | src/contexts/ThemeContext.tsx:53 | Flips only the high-contrast flag. |
| ThemeContext.ColorBlindModeToggled | src/contexts/ThemeContext.tsx:54 | Flips only the colour-blind flag. |
| ThemeContext.ToggleTwice | src/contexts/ThemeContext.tsx:52-54 | Toggling one flag twice restores the flags, and so the theme string. |
| ThemeContext.ToggleChangesTheme | src/contexts/ThemeContext.tsx:46-54 | Any single toggle changes the theme string. |
| ThemeContext.Provider.constructor | src/contexts/ThemeContext.tsx:16-19 | Dark on, high contrast and colour-blind off, theme `'dark'`. |
| ThemeContext.Provider.ApplyTheme | src/contexts/ThemeContext.tsx:32-50 | The effect leaves the flags alone and makes the theme string agree with them. |
| ThemeContext.Provider.Load | src/contexts/ThemeContext.tsx:21-30 | The saved flags are adopted if present, and the theme string then agrees with the flags. |
| ThemeContext.Provider.ToggleDarkMode | src/contexts/ThemeContext.tsx:52 | Flips the dark flag, then the theme agrees with the flags. |
| ThemeContext.Provider.ToggleHighContrast | src/contexts/ThemeContext.tsx:53 | Flips the high-contrast flag, then the theme agrees with the flags. |
| ThemeContext.Provider.ToggleColorBlindMode | src/contexts/ThemeContext.tsx:54 | Flips the colour-blind flag, then the theme agrees with the flags. |
| PostProcessControls.Changed | src/components/panel-editor/PostProcessControls.tsx:16-21 | The named setting takes the value and the other two are unchanged. |
| PostProcessControls.ChangedStaysInRange | src/components/panel-editor/PostProcessControls.tsx:41-47 | Slider values are integers in 0..100, so settings in range stay in range. |
| PostProcessControls.ChangedLaws | src/components/panel-editor/PostProcessControls.tsx:16-21 | Writing back a field's own value changes nothing. The later of two writes to one field wins. |
| PostProcessControls.ChangesCommute | src/components/panel-editor/PostProcessControls.tsx:16-21 | Writes to two different fields commute. |
| PostProcessControls.Band | src/components/panel-editor/PostProcessControls.tsx:38 | Band 0 below 30, band 2 from 70, band 1 between. |
| PostProcessControls.BandMonotone | src/components/panel-editor/PostProcessControls.tsx:38 | A larger value never falls in a lower band. |
| PostProcessControls.Label | src/components/panel-editor/PostProcessControls.tsx:38 | Low/Medium/High, Subtle/Balanced/Dramatic and Minimal/Moderate/Dense at thresholds 30 and 70, each word iff its range. |
| PostProcessControls.LabelDeterminesBand | src/components/panel-editor/PostProcessControls.tsx:58 | Two values get the same word exactly when they are in the same band. |

## Left out

- JSX markup, Tailwind classes, framer-motion animation and toasts as UI are not modelled. A toast is the `notice` result of a submit handler.
- Konva plumbing is not modelled: the stage, the transformer node list, `findOne`, `batchDraw` and `useImage`. The transformed node's position, size and scale are plain inputs.
- Browser storage is not modelled. The stored user and the saved theme flags are optional inputs to the mount steps. A failed write of the user is the `storageFails` flag. `JSON.parse` errors and `document.body.classList` are not modelled.
- The timers are replaced. The login and sign-up delays are gone: each handler is one atomic step. The carousel's five-second interval is the explicit `Testimonials.Carousel.Tick` step.
- Randomness is a parameter. The sign-up id is the `id` parameter.
- Geometry and opacity are JavaScript numbers and are modelled as `real`, with no IEEE-754 rounding or NaN.
- Lengths are counted in characters, not UTF-16 code units.
- `toLowerCase` is modelled on ASCII letters only. `\s` is modelled as the explicit set of characters JavaScript matches.
- CommunityHub.SortDescending: states sortedness and permutation, but not the tie order of the engine's stable sort.
- CommunityHub.NumericId: only an id of digits only is read as `parseInt` reads it. Leading whitespace, a sign and a `0x` prefix (`" 12"`, `"-12"`, `"0x1A"` give 12, -12 and 26) are not modelled and give 0, and neither is the NaN of a non-numeric id. Every mock id is all digits.
- CommunityHub.MostLiked: promises a panel with maximal likes, not which of several tied panels `reduce` keeps.
- LayeredEditor.Moved: requires that the id is listed, as the layer list only offers listed ids. With an unknown id, `findIndex` gives -1 and the source's `splice(-1, 1)` would rotate the last layer to the front. That case is not modelled.
- LayeredEditor.MoveInCopy: the copied array is updated by one swap, proved equal to the source's two `splice` calls. The in-place `splice` shifting itself is modelled on sequences, by `RemoveAt` and `InsertAt`.
- PanelCard: the `onLike`, `onShare` and `onClick` callbacks are not modelled. They notify the owner: the gallery logs a like, shows a toast on share, and on click shows a toast and, at random, starts a prank. Logging, toasts and randomness are outside the model.
- ColorPicker: the picker's open/closed flag and its `onClose` are not modelled. They are presentation only.
- The other files are not part of this model: pages that are markup or navigation, the upload flow with `FileReader`, the fun-mode pranks, routing and configuration.
