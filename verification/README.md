# Voting dapp front-end logic in Dafny

This project models the parts of a voting and governance web front end that
carry real logic, and proves properties of them:

- **The vote wallet** (`imports/ui/modules/Wallet.js`): a per-target object
  holding a user's `available`, `balance`, `placed` and `inBallot` votes, the
  quantity currently allocated and the width of the slider that shows it.
  `allocateVotes` and `sliderInput` saturate their inputs with `_scope` and call
  each other with a flag that stops the echo after one hop; `sliderPercentage`
  re-applies the allocation; `resetSlider` puts the slider and the allocation back
  at the in-ballot votes. `verifyVote` scans a ledger for a user and marks the
  session wallet as executed. Modelled as the class `VoteWallet.Wallet` and the
  method `VoteWallet.VerifyVote`; the two mutually recursive methods terminate
  by a `decreases` on their suppression flags.
- **Agreement text** (`client/components/decision/agreement/agreement.js`):
  `dynamicTextCheck` replaces the first `<delegator>`, `<delegate>` and
  `<votes>` of a delegation contract's text, with JavaScript's
  `String.prototype.replace` semantics for a string pattern (first occurrence
  only, and the `$$`, `$&`, `` $` ``, `$'` patterns in the replacement);
  `getProfileName` builds a display name; the editor keeps the
  `missingDescription` flag through focus, blur, reload from the store and the
  delayed save. Modelled as functions and the class `Agreement.Editor`.
- **Layout routing** (`src/components/Layout/Layout.jsx`): the route parameters
  `dao`, `address` and `period`, in that priority, choose one view and the
  address handed to the menu, the timeline and the ledger.

Wallet arithmetic runs on JavaScript numbers. `JsNumber.Num` keeps finite values
as exact reals and keeps NaN and the two infinities, because the wallet divides
by `balance`, by the bar width and by `available` without guards. As a result the
allocation bound `0 <= allocateQuantity <= available + inBallot` holds for every
quantity except NaN, and only while `available + inBallot` is not negative
(`VoteWallet.Clamped`): with `available` at -5 and nothing in the ballot,
`allocateVotes(3)` stores -5, because the upper bound is applied after the
lower one. NaN does reach the allocation: a bar
that is shown but measured zero pixels wide makes `sliderInput` allocate NaN
(`VoteWallet.ZeroWidthBarAllocatesNaN`). Likewise, `resetSlider` restores
`allocateQuantity == inBallot` only when `inBallot` and `available` are not
negative and the wallet is enabled. Both statements are narrower than the
unconditional versions one might expect; the model follows the code.

What the wallet reads from the page is the parameter `Page`: the widths of
`#voteSlider-<id>` and `#voteBar-<id>` and whether the bar and the handle have
an offset. The data-store lookups (`userVotesInContract`, the two `findOne`
calls of `getTargetType`) are constructor parameters. The session wallet of
`verifyVote` is a `Wallet?` parameter, null when the session has none. The
session's `DELEGATOR` and `DELEGATE` users are `Option<Profile>` parameters, and
reading a missing one is the `MissingProfile` failure (a TypeError in the
source). The `missingDescription` session flag is `Option<bool>`, absent until
first set. `Modules.client.stripHTMLfromText` is a function parameter of `Blur`,
and the localised placeholder text is the editor's `placeholder` constant.

## Model

| member | source | states |
|---|---|---|
| `JsNumber.ParseInt` | imports/ui/modules/Wallet.js:83 | `parseInt(x, 10)` on a number gives a whole number within 1 of a finite `x`, on the same side of 0; NaN for NaN and the infinities |
| `JsNumber.ToFixed2` | imports/ui/modules/Wallet.js:118 | `toFixed(2)` read back is within half a hundredth of a finite value and has at most two decimals (100 times it is whole), and leaves NaN and the infinities as they are |
| `JsNumber.ToFixed2TiesAway` | imports/ui/modules/Wallet.js:118 | a value half-way between two hundredths is rounded away from zero: the result is strictly less than half a hundredth below a non-negative value and strictly less than half a hundredth above a negative one |
| `VoteWallet.TargetTypeOf` | imports/ui/modules/Wallet.js:14-21 | the target is a vote iff it is a contract, a delegation iff it is a user and not a contract, unknown otherwise |
| `VoteWallet.Scope` | imports/ui/modules/Wallet.js:72-77 | `_scope` returns `min` (0 by default) for a value below it, even when the bounds cross; otherwise `max` for a value above it; otherwise keeps the value itself, whatever it is (NaN or non-finite bounds included); with finite bounds and `min <= max` it gives a result between `min` and `max` for any non-NaN value; and passes NaN through |
| `VoteWallet.Clamped` | imports/ui/modules/Wallet.js:83 | the stored allocation is 0 for a negative quantity, `available + inBallot` for any other quantity above that sum (even a negative sum), the truncated quantity when it was already in range, and NaN for NaN; so it is a whole number in `[0, available + inBallot]` for every non-NaN quantity when that sum is not negative |
| `VoteWallet.PixelsToVotes` | imports/ui/modules/Wallet.js:101-103 | the votes derived from the slider are NaN or a whole number, and in `[0, available + inBallot]` when that sum is not negative; never NaN for finite widths and a bar wider than 0, always NaN for a zero-width bar |
| `VoteWallet.PixelsToVotesClampsWidth` | imports/ui/modules/Wallet.js:101 | the rendered slider width is first clamped to `[0, maxWidth]`: for finite widths, a non-negative `maxWidth` and a non-zero bar, the votes are those of the clamped width, which lies in `[0, maxWidth]` |
| `VoteWallet.PixelsToVotesValue` | imports/ui/modules/Wallet.js:101-103 | for a (clamped) slider width in `[0, maxWidth]` and a finite bar wider than 0, the votes are `trunc(sliderWidth * balance / barWidth)` when that lies in `[0, available + inBallot]`, 0 when it is negative, and `available + inBallot` when it is above |
| `VoteWallet.SliderTarget` | imports/ui/modules/Wallet.js:94-99 | the new slider width is 0 without a handle; with one it is 0 when the initial width plus the offset is negative, otherwise `maxWidth` when that sum is above it, and otherwise the sum itself (also when `maxWidth` is NaN); exactly the sum when it is in range, and always in `[0, maxWidth]` for a non-NaN sum and a finite, non-negative `maxWidth` |
| `VoteWallet.SyncOffsetValue` | imports/ui/modules/Wallet.js:86-88 | for finite widths, a non-zero `available` and a non-zero `maxWidth`, the offset `allocateVotes` passes on is `maxWidth * allocateQuantity / available - renderedWidth * available / maxWidth`; with `available` 0 it is not finite |
| `VoteWallet.SyncOffsetMixesUnits` | imports/ui/modules/Wallet.js:86-96 | a slider drawn at 100 of 200 pixels for 5 of 10 votes is moved by 95 pixels to 195, because the offset subtracts a vote count from a pixel width |
| `VoteWallet.MaxWidthFor` | imports/ui/modules/Wallet.js:63 | the maximum slider width is NaN when the balance is 0 |
| `VoteWallet.NoBalanceUncapped` | imports/ui/modules/Wallet.js:63 | with a balance of 0 the NaN maximum width caps nothing: a non-negative slider target is taken as it is, past the end of the bar |
| `VoteWallet.InitialWidth` | imports/ui/modules/Wallet.js:118-120 | the reset slider width is NaN when the balance is 0 and otherwise NaN or a whole number of pixels |
| `VoteWallet.FirstVote` | imports/ui/modules/Wallet.js:132-143 | the index of the first ledger entry of the user, and none exactly when no entry is the user's |
| `VoteWallet.Wallet.constructor` | imports/ui/modules/Wallet.js:30-70 | fields copied from the snapshot or set to the zero defaults, `inBallot` from the ballot lookup, enabled and pending, `voteId` the session id or else the target id, the maximum width from the bar, and the slider reset to the in-ballot votes, with the allocated and placed percentages of the balance (the predicates `Loaded`, `SliderReset` and `AllocationReset`) |
| `VoteWallet.Wallet.AllocateVotes` | imports/ui/modules/Wallet.js:79-90 | when enabled, the allocation becomes the clamped quantity and both percentages are recomputed; when disabled they stay; the slider follows only when not suppressed, and the suppressed call changes nothing else |
| `VoteWallet.Wallet.SliderInput` | imports/ui/modules/Wallet.js:92-107 | nothing changes without the bar; otherwise the slider moves by the offset (0 when missing) within `[0, maxWidth]`, or to 0 without a handle, and unless suppressed the allocation becomes the clamped slider-derived votes |
| `VoteWallet.Wallet.SliderPercentage` | imports/ui/modules/Wallet.js:109-112 | re-applying the allocation clamps it again, so an allocation within bounds stays as it is; the placed percentage is recomputed from `placed` and `balance`, and the slider follows the allocation |
| `VoteWallet.Wallet.ResetSlider` | imports/ui/modules/Wallet.js:117-123 | the slider goes to the in-ballot width (`SliderReset`); when enabled (`AllocationReset`) the allocation is the clamped `inBallot`, with both percentages of the balance, and is `inBallot` exactly if `inBallot` and `available` are not negative; the slider is not moved a second time |
| `VoteWallet.VerifyVote` | imports/ui/modules/Wallet.js:131-147 | returns true iff some entry is the user's; on the first match the session wallet, if any, is executed with that entry's quantity and percentage and nothing else of it changes; on a miss nothing changes |
| `VoteWallet.MaxWidthWholeBar` | imports/ui/modules/Wallet.js:63 | with nothing placed outside this target the slider may span the whole bar |
| `VoteWallet.MaxWidthWithinBar` | imports/ui/modules/Wallet.js:63 | when the votes placed elsewhere are a share of a positive balance, the maximum width is finite and between 0 and the bar width |
| `VoteWallet.InitialWidthWithinBar` | imports/ui/modules/Wallet.js:118-120 | when the in-ballot votes are a share of a positive balance, the reset width is a whole number between 0 and the bar width |
| `VoteWallet.ClampKeepsAllocation` | imports/ui/modules/Wallet.js:109-112 | an allocation within bounds is a fixed point of the clamp |
| `VoteWallet.ClampIdempotent` | imports/ui/modules/Wallet.js:83 | clamping twice equals clamping once whenever `available + inBallot` is not negative |
| `VoteWallet.SliderAllocationWithin` | imports/ui/modules/Wallet.js:100-105 | with finite widths and a bar wider than 0, the slider-derived votes satisfy the allocation bound and pass through `allocateVotes` unchanged |
| `VoteWallet.ZeroWidthBarAllocatesNaN` | imports/ui/modules/Wallet.js:101-104 | a bar measured zero wide makes the slider-derived allocation NaN |
| `Agreement.ProfileName` | client/components/decision/agreement/agreement.js:149-158 | the name starts with the first name (empty if missing), followed by a space and the last name exactly when there is one, and has no other characters |
| `Agreement.IndexOf` | client/components/decision/agreement/agreement.js:141-143 | the search finds the first occurrence at or after the start index, or reports that there is none |
| `Agreement.Substitution` | client/components/decision/agreement/agreement.js:141-143 | a replacement with no `$` is inserted as it is |
| `Agreement.ReplaceFirst` | client/components/decision/agreement/agreement.js:141-143 | a string without the pattern is unchanged; otherwise only the first occurrence is replaced by the expanded replacement and the text around it is kept |
| `Agreement.DollarPattern` | client/components/decision/agreement/agreement.js:141-143 | in a replacement value, `$$` stands for `$`, `$&` for the match, `` $` `` for the text before it and `$'` for the text after it, each followed by what the rest of the value stands for |
| `Agreement.ReplaceWithAfter` | client/components/decision/agreement/agreement.js:141 | replacing the first occurrence with `$'` writes the text after the match twice, so a name holding `$'` pulls the rest of the text in |
| `Agreement.ReplaceFirstUndo` | client/components/decision/agreement/agreement.js:141-143 | putting the pattern back in place of a `$`-free replacement gives the original text |
| `Agreement.ReplaceFirstKeepsLater` | client/components/decision/agreement/agreement.js:141-143 | every later occurrence of the pattern survives the replacement, shifted by the change in length |
| `Agreement.VotesShownAsZeros` | client/components/decision/agreement/agreement.js:143 | the first `<votes>` becomes `<span class='dynamic-text'>000</span>` |
| `Agreement.DynamicTextCheck` | client/components/decision/agreement/agreement.js:125-147 | text of a non-delegation contract is returned unchanged; for a delegation a missing delegator, then a missing delegate, is an error, and text without any placeholder is returned unchanged |
| `Agreement.DelegationText` | client/components/decision/agreement/agreement.js:141-143 | for any texts `a`, `b` (HTML included) in which no `<` is followed by `d` or `v`, any `c` in which no `<` is followed by `v`, any text `d`, and names without `$` in which no `<` is followed by `d` or `v`, `a<delegator>b<delegate>c<votes>d` becomes `a`, the wrapped delegator name, `b`, the wrapped delegate name, `c`, the wrapped `000`, `d` |
| `Agreement.DelegatorOnlyText` | client/components/decision/agreement/agreement.js:141-143 | a text `a<delegator>b`, with `a`, `b` in which no `<` is followed by `d` or `v`, shows the wrapped delegator name in place of the placeholder; the other two replacements change nothing |
| `Agreement.VotesFirstText` | client/components/decision/agreement/agreement.js:141-143 | for `a` in which no `<` is followed by `d` or `v`, `b` and `c` in which no `<` is followed by `d`, any `d` and the same names, `a<votes>b<delegator>c<delegate>d` becomes `a`, the wrapped `000`, `b`, the wrapped delegator name, `c`, the wrapped delegate name, `d` |
| `Agreement.ParagraphExample` | client/components/decision/agreement/agreement.js:141-143 | the HTML text `<p><delegator> voted</p>` shows the wrapped delegator name inside the paragraph |
| `Agreement.DelegatorExample` | client/components/decision/agreement/agreement.js:141-143 | a delegation text `<delegator> voted` shows the wrapped delegator name followed by ` voted`, and the later `<delegate>` and `<votes>` replacements find nothing to change when the name holds no `<` and no `$` |
| `Agreement.Editor.Focus` | client/components/decision/agreement/agreement.js:106-111 | a shown placeholder is cleared and the flag becomes false; otherwise nothing changes; afterwards the flag is never set |
| `Agreement.Editor.Blur` | client/components/decision/agreement/agreement.js:112-118 | stripped content of at most one character sets the flag and shows the placeholder; longer content changes nothing |
| `Agreement.Editor.Reload` | client/components/decision/agreement/agreement.js:63-77 | when the note is rendered and the contract is found, a description of at most one character shows the placeholder and sets the flag, a longer one is shown and clears it; otherwise nothing changes |
| `Agreement.Editor.SavePayload` | client/components/decision/agreement/agreement.js:50-59 | the save sends the editor markup when the flag is false and the empty string when it is set or was never set |
| `Layout.Resolve` | src/components/Layout/Layout.jsx:19-32 | the view is DAO iff `dao` is truthy, ADDRESS iff only `address` among the first two is, PERIOD iff only `period` is, HOME otherwise; DAO and ADDRESS render that parameter, PERIOD and HOME the given address |
| `Layout.Render` | src/components/Layout/Layout.jsx:36-56 | the menu, the timeline and the ledger receive the same resolved address and view, and the timeline its fixed query |
| `Layout.DaoOverridesRest` | src/components/Layout/Layout.jsx:24-26 | a truthy `dao` fixes the view and address whatever `address` and `period` are |

The wallet methods also keep the allocation bound `VoteWallet.Wallet.AllocationWithin`
(the allocation is a whole number in `[0, available + inBallot]`): an enabled
`AllocateVotes` establishes it for any quantity but NaN when that range is not
empty and a disabled one keeps it; `SliderPercentage` keeps it; `SliderInput`
keeps it when the widths are finite and the bar is wider than 0; and
`ResetSlider` establishes it on an enabled wallet when `inBallot` and
`available` are not negative.

The editor methods also keep the invariant `Agreement.Editor.ShowsPlaceholder`:
while the flag is set, the editor shows the placeholder.

## Left out

- Page measurement and animation: jQuery `width()` and `offset()` are the `Page` parameter; the `velocity` animation of `resetSlider` (imports/ui/modules/Wallet.js:119) is not modelled, so nothing links the slider width it animates to a later `Page`.
- The round trip between `allocateVotes` and `sliderInput` (votes to pixels and back) is not stated, because the code does not keep it: the offset `allocateVotes` computes (imports/ui/modules/Wallet.js:86-88) subtracts the rendered width scaled to votes from a width in pixels, so a slider already at the right place is moved (`VoteWallet.SyncOffsetMixesUnits`); the way back also reads the rendered width, which the `resetSlider` animation changes.
- Vote counts (`available`, `balance`, `placed`, `inBallot`, ledger quantities and the votes already in the contract) are Dafny integers; the source keeps them in JavaScript numbers, so fractional or non-finite counts are not modelled.
- IEEE-754 rounding, negative zero, and `parseInt` of numbers that print in exponent notation (below 1e-6 or from 1e21 in magnitude): finite numbers are exact reals and `parseInt` truncates them.
- `Object.assign` of an arbitrary wallet record: the snapshot carries the address, ledger, available, balance, placed and currency fields; the constructor overwrites every other wallet field.
- The `initialized` flag of the wallet, true only while the constructor runs.
- The `getTargetType` and `userVotesInContract` data-store lookups: their answers are constructor parameters.
- Meteor `Session` copies values on `get` and `set`; `VerifyVote` updates the session wallet in place.
- The `Deps.autorun` reactivity, the `Meteor.setTimeout` debounce and the `saveDescription` call: `Reload` is one run of the autorun and `SavePayload` returns what the timer would save.
- The DRAFT/VOTE guard of `Template.agreement.rendered` (agreement.js:9) that decides whether the editor, the autorun and the save exist, and the MediumEditor configuration.
- The signature loop of `dynamicTextCheck` (agreement.js:132-140): it only logs, fires `getUserInfo` and fills an unused index; a contract without a signatures array is not modelled.
- Delegation texts whose placeholders come in an order other than the two proved (`DelegationText`, `VotesFirstText`), texts holding a placeholder twice, and texts in which another `<d` or `<v` tag comes before a placeholder: for these the result is only what `Agreement.ReplaceFirst` states about each of the three replacements in turn.
- The `sampleMode` and `description` template helpers (agreement.js:87-98).
- The difference between `innerText` and `innerHTML`, and between `#editor` and `.cr-note`: the editor is one string.
- String lengths count Dafny characters, not UTF-16 code units.
- `console.log` calls, React rendering, `useParams` and `PropTypes`.
