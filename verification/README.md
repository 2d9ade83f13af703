# Employee retention console: verified model of its two stateful pages

This project models, in Dafny, the logic inside two pages of the
employee-retention-prediction console.

- **The retention dashboard** is `app/page.tsx`. It filters the employee list by a search term and a department. It counts the HIGH, MEDIUM and LOW records and prints each count as a rounded share of the total. It shows a high-risk banner and one recommendation card per HIGH record. It maps each risk level to a badge variant and a Japanese label, and previews at most three risk factors. All of this is pure computation over the employee records. It is modelled as functions over `seq<Employee>` in module `RetentionDashboard`, with lemmas about those functions.
- **The Slack connector settings page** is `app/integrations/slack/page.tsx`. It holds six state cells: connection status, selected channels, include-private flag, retention days, error message and the reconnecting flag. Four handlers change them: connect, disconnect, reconnect and channel toggle. The model is the class `SlackIntegration.SlackConnector`, with those six fields and one method per handler. The page's render conditions decide which handler a user can reach in which state; they are the methods' preconditions. The class invariant `Valid()` is kept by every method. The list rebuild done by the toggle, the visible-channel filter and the status badge are pure functions, each with lemmas.

Supporting modules:

- `Seqs` holds the generic `Filter` (`Array.prototype.filter`), the subsequence and no-duplicates predicates, and their lemmas.
- `Text` holds `toLowerCase` (over ASCII) and `String.prototype.includes`.
- `Wrappers` holds `Option`.

Where a reader might expect otherwise, the model follows the code:

- No code computes a risk level from the score. `riskLevel` is a stored string, so any string can reach the badge functions.
- The department and risk-factor statistics are literals. Nothing aggregates them.
- Switching "include private channels" off does not drop private channels from the selection. `HiddenChannelStaysSelected` shows a hidden channel staying selected.
- Disconnect is offered only while connected. Connect is offered only when disconnected, or in error with a message. Nothing is offered while connecting.
- The source's reconnect always succeeds, because its timer promise never rejects. The failure branch (status kept, message "再接続に失敗しました") is still modelled through `success = false`, as the code writes it.

Inputs the page takes from outside become parameters:

- The OAuth outcome, `Math.random() > 0.2` after a two-second timer, becomes `success: bool`.
- The reconnect timer's outcome also becomes `success: bool`.
- The channel directory becomes the constructor argument `channels`.

Each async handler is split at its `await`:

- `BeginConnect` then `CompleteConnect`;
- `BeginReconnect` then `CompleteReconnect`.

Because of this split, the state the page renders while the timer runs is a state of the model. `Connect` and `Reconnect` run both halves back to back.

## Model

| member | source | states |
|---|---|---|
| `RetentionDashboard.RiskBadgeColor` | employee-retention-prediction/app/page.tsx:99-110 | total over all strings: destructive exactly for HIGH, secondary exactly for LOW, default for MEDIUM and every other string |
| `RetentionDashboard.RiskLevelText` | employee-retention-prediction/app/page.tsx:112-123 | an unknown level is returned unchanged; a known level gets a label that is not itself a level name |
| `RetentionDashboard.RiskLevelTextDistinguishesKnownLevels` | employee-retention-prediction/app/page.tsx:112-123 | HIGH, MEDIUM and LOW get pairwise different labels |
| `RetentionDashboard.FilteredEmployees` | employee-retention-prediction/app/page.tsx:130-136 | a record is listed iff it is in the input, its name or department contains the lower-cased term, and the department filter is "all" or equals its department; with a filter other than "all", every listed department equals it exactly; each listed record appears as many times as in the input |
| `RetentionDashboard.FilteredEmployeesPreservesOrder` | employee-retention-prediction/app/page.tsx:130-136 | the filtered list is an order-preserving subsequence of the input |
| `RetentionDashboard.UnfilteredListIsEverything` | employee-retention-prediction/app/page.tsx:127-136 | with the initial search "" and filter "all", the list is the whole input in its order |
| `RetentionDashboard.SearchIsCaseInsensitive` | employee-retention-prediction/app/page.tsx:131-133 | lower-casing the search term first does not change the list |
| `RetentionDashboard.SearchDependsOnlyOnLoweredTerm` | employee-retention-prediction/app/page.tsx:131-133 | two terms with the same lower-case form list the same records |
| `RetentionDashboard.MockSearchByName` | employee-retention-prediction/app/page.tsx:26-136 | on the page's four records, searching 田中 over all departments gives exactly the list [田中 太郎] |
| `RetentionDashboard.LevelCount` | employee-retention-prediction/app/page.tsx:139-141 | each per-level count is at most the total, and it is zero iff no record has that level |
| `RetentionDashboard.UnclassifiedEmployees` | employee-retention-prediction/app/page.tsx:138-141 | exactly the records whose level is none of HIGH, MEDIUM, LOW, each as many times as in the input; no count includes them |
| `RetentionDashboard.LevelCountsPartition` | employee-retention-prediction/app/page.tsx:138-141 | high + medium + low + unclassified records = total |
| `RetentionDashboard.LevelCountsSumToTotal` | employee-retention-prediction/app/page.tsx:138-141 | the three counts sum to `totalEmployees` iff every level is one of the three |
| `RetentionDashboard.MockLevelCounts` | employee-retention-prediction/app/page.tsx:26-141 | the page's own records give 2 HIGH, 1 MEDIUM, 1 LOW |
| `RetentionDashboard.RoundHalfUp` | employee-retention-prediction/app/page.tsx:196 | `Math.round(n/d)` for n ≥ 0, d > 0: the result is within one half of n/d, and an exact half rounds up |
| `RetentionDashboard.SharePercent` | employee-retention-prediction/app/page.tsx:196 | no value (`NaN`, or `Infinity` for a positive count) iff the total is 0; otherwise the integer nearest to 100·count/total, halves up |
| `RetentionDashboard.SharePercentBounded` | employee-retention-prediction/app/page.tsx:196 | for 0 ≤ count ≤ total and total > 0, the share is a number in [0, 100] |
| `RetentionDashboard.LevelSharesBounded` | employee-retention-prediction/app/page.tsx:194-218 | for a non-empty list, each of the three displayed shares is in [0, 100] |
| `RetentionDashboard.MockShares` | employee-retention-prediction/app/page.tsx:196-218 | for the counts computed from its records, the page prints 50% HIGH, 25% MEDIUM and 25% LOW |
| `RetentionDashboard.Recommendations` | employee-retention-prediction/app/page.tsx:442-443 | exactly the HIGH records of the input, one card per occurrence |
| `RetentionDashboard.RecommendationsMatchHighRiskCount` | employee-retention-prediction/app/page.tsx:442-443 | the recommendation cards are in input order, and there are exactly `highRiskCount` of them |
| `RetentionDashboard.HighRiskAlertIffRecommendations` | employee-retention-prediction/app/page.tsx:167 | the alert banner shows iff some record is HIGH, iff the recommendation list is non-empty |
| `RetentionDashboard.MockRecommendations` | employee-retention-prediction/app/page.tsx:26-81 | the page recommends actions for 田中 太郎 and 山田 美咲, in that order |
| `RetentionDashboard.DisplayedRiskFactors` | employee-retention-prediction/app/page.tsx:364-368 | at most three factors, a prefix of the record's list, exactly min(3, length) of them for a HIGH record and none otherwise |
| `Text.Lower` | employee-retention-prediction/app/page.tsx:132 | lower-casing keeps the length and leaves no capital letter |
| `Text.LowerIdempotent` | employee-retention-prediction/app/page.tsx:132-133 | lower-casing twice is lower-casing once |
| `Text.IncludesAt` | employee-retention-prediction/app/page.tsx:132-133 | `includes` holds iff the term occurs at some position of the field |
| `Text.IncludesEmpty` | employee-retention-prediction/app/page.tsx:132-133 | every string includes "", so the empty search matches every record |
| `Text.IncludesNeedsChar` | employee-retention-prediction/app/page.tsx:132-133 | a term with a character the field lacks is never included in it |
| `RetentionDashboard.NotFoundBySurname` | employee-retention-prediction/app/page.tsx:131-134 | a record whose name and department lack 中 does not match the search 田中 and is not listed under any department filter |
| `RetentionDashboard.FoundBySurname` | employee-retention-prediction/app/page.tsx:130-136 | 田中 太郎 is listed for the search 田中 over all departments |
| `Seqs.Filter` | employee-retention-prediction/app/page.tsx:130 | the result is no longer than the input, and it holds exactly the input's elements that pass the predicate |
| `Seqs.FilterCounts` | employee-retention-prediction/app/page.tsx:130 | every element that passes is kept as many times as it occurs in the input, and every other element is dropped |
| `RetentionDashboard.MockOthersNotFoundBySurname` | employee-retention-prediction/app/page.tsx:26-136 | 佐藤 花子, 鈴木 一郎 and 山田 美咲 are not listed for a search for 田中 over all departments |
| `SlackIntegration.Toggle` | employee-retention-prediction/app/integrations/slack/page.tsx:137-141 | flips membership of the toggled id and leaves membership of every other id unchanged |
| `SlackIntegration.TogglePreservesNoDuplicates` | employee-retention-prediction/app/integrations/slack/page.tsx:137-141 | a selection without duplicates stays without duplicates |
| `SlackIntegration.ToggleTwiceRestoresList` | employee-retention-prediction/app/integrations/slack/page.tsx:137-141 | toggling an unselected id twice restores the exact list |
| `SlackIntegration.ToggleTwiceRestoresSet` | employee-retention-prediction/app/integrations/slack/page.tsx:137-141 | toggling a selected id twice restores the same set, with that id moved to the end |
| `SlackIntegration.VisibleChannels` | employee-retention-prediction/app/integrations/slack/page.tsx:353-354 | a channel is shown iff it is in the directory and private channels are included or it is public, as many times as the directory lists it |
| `SlackIntegration.VisibleChannelsPreserveOrder` | employee-retention-prediction/app/integrations/slack/page.tsx:353-354 | the shown channels keep the directory order |
| `SlackIntegration.VisibleChannelsWithPrivateAreAll` | employee-retention-prediction/app/integrations/slack/page.tsx:353-354 | with private channels included, every channel is shown |
| `SlackIntegration.StatusBadgeLabelsDistinct` | employee-retention-prediction/app/integrations/slack/page.tsx:143-174 | the badge is total over the four statuses, with four different labels |
| `SlackIntegration.OfferedActionsAreExclusive` | employee-retention-prediction/app/integrations/slack/page.tsx:211-275 | connect/retry is never offered together with reconnect or disconnect; reconnect is offered only with disconnect and the configuration card; nothing is offered while connecting |
| `SlackIntegration.SlackConnector.constructor` | employee-retention-prediction/app/integrations/slack/page.tsx:89-94 | initial state: disconnected, nothing selected, private excluded, retention "30", no error, not reconnecting |
| `SlackIntegration.SlackConnector.BeginConnect` | employee-retention-prediction/app/integrations/slack/page.tsx:96-98 | from a state offering connect: status becomes connecting and the error is cleared; selection, private flag and retention are untouched |
| `SlackIntegration.SlackConnector.CompleteConnect` | employee-retention-prediction/app/integrations/slack/page.tsx:101-114 | success: connected; failure: error status with the thrown message; nothing else changes |
| `SlackIntegration.SlackConnector.Connect` | employee-retention-prediction/app/integrations/slack/page.tsx:96-115 | ends connected with no error, or in error with a non-null message; never touches selection, private flag or retention |
| `SlackIntegration.SlackConnector.Disconnect` | employee-retention-prediction/app/integrations/slack/page.tsx:117-121 | disconnected, empty selection, no error; private flag and retention unchanged |
| `SlackIntegration.SlackConnector.BeginReconnect` | employee-retention-prediction/app/integrations/slack/page.tsx:123-125 | reconnecting flag set and error cleared; status and selection unchanged |
| `SlackIntegration.SlackConnector.CompleteReconnect` | employee-retention-prediction/app/integrations/slack/page.tsx:127-134 | success: connected; failure: status left as it was, error "再接続に失敗しました"; the reconnecting flag is cleared and the selection kept either way |
| `SlackIntegration.SlackConnector.Reconnect` | employee-retention-prediction/app/integrations/slack/page.tsx:123-135 | the session stays connected whatever the outcome, not reconnecting afterwards, selection unchanged, error only on failure |
| `SlackIntegration.SlackConnector.ToggleChannel` | employee-retention-prediction/app/integrations/slack/page.tsx:137-141 | the selection becomes `Toggle(old selection, id)`; nothing else changes; the invariant (no duplicates, only known ids) is kept |
| `SlackIntegration.SlackConnector.SetIncludePrivateChannels` | employee-retention-prediction/app/integrations/slack/page.tsx:341-345 | only the flag changes; the selection is not pruned |
| `SlackIntegration.SlackConnector.SetDataRetentionDays` | employee-retention-prediction/app/integrations/slack/page.tsx:395-404 | retention is set to one of "7", "30", "90", "180", "365" and stays one of them |
| `SlackIntegration.SettledStateOffersAction` | employee-retention-prediction/app/integrations/slack/page.tsx:211-275 | in every state the model reaches except connecting, connect/retry or disconnect is rendered; an error state always has a message, so it is never a dead end |
| `SlackIntegration.SaveEnabledOnlyWhenConfigurable` | employee-retention-prediction/app/integrations/slack/page.tsx:326-433 | in every state the model reaches, a non-empty selection (save enabled) implies that the configuration card is shown |
| `SlackIntegration.ConnectSelectDisconnect` | employee-retention-prediction/app/integrations/slack/page.tsx:96-121 | connect, select #general, disconnect: disconnected, nothing selected, no error |
| `SlackIntegration.FailedReconnectKeepsSession` | employee-retention-prediction/app/integrations/slack/page.tsx:123-141 | after a failed reconnect: still connected, selection intact, failure message set |
| `SlackIntegration.HiddenChannelStaysSelected` | employee-retention-prediction/app/integrations/slack/page.tsx:341-360 | with private channels shown, select #hr-team, then hide private channels: #hr-team stays selected but is no longer shown |
| `SlackIntegration.PrivateChannelHidden` | employee-retention-prediction/app/integrations/slack/page.tsx:38-45 | #hr-team is not among the channels shown when private channels are excluded |

## Left out

- Markup and appearance are not modelled: layout, styling, icons, the help dialog and the navigation links. They have no behaviour to state.
- The department bar widths (`dept.high / dept.total * 100`) are not modelled. They are floating-point styling values.
- The static literals are not modelled: department statistics, risk-factor percentages, the age-band figures, the permission catalog, and the workspace and last-sync text. They are constants; no code computes them.
- No risk classifier or aggregation is modelled, because the code has none. Each record's `riskLevel` is taken as given.
- SharePercent: computes `Math.round(count / total * 100)` on exact rationals. The page divides in IEEE doubles, which can fall just below a half and round down. For example, 57/200*100 evaluates to 28.499999999999996, so the page prints 28, while the model gives 29.
- Text.Lower: lower-cases ASCII letters only. Full Unicode case folding (`toLowerCase`) is not modelled. The page's own names and departments are kanji and kana, which have no case.
- `Math.random()` and the `setTimeout` promises are not modelled. Their outcome is the `success` parameter.
- The catch-all message "接続エラーが発生しました" is not modelled. It is unreachable, because the thrown value is always an `Error`.
- SaveEnabledOnlyWhenConfigurable: holds for the states the model reaches, not for every state of the page. In the page, a reconnect started before a disconnect can land during a later connect attempt and set "connected". The user can then select a channel, and the connect attempt can fail afterwards. That leaves the page in "error" with channels still selected, and a later successful retry keeps that old selection.
- SlackConnector.CompleteConnect: requires the status to still be "connecting". So the model does not let a pending reconnect finish in the middle of a connect attempt and then have the connect attempt finish after it. React's batching of state updates and re-render timing are not modelled either.
- The following controls are not modelled because they hold no state or have no handler: the sync-frequency select, the reset, save, report and notification buttons, and the `selectedEmployee` state, which is written but never read.
- The save action itself is not modelled; it has no handler. Only its enabling condition, `SaveEnabled`, is stated.
