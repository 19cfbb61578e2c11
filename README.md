# Pearls ingestion ledger and yield arithmetic, in Dafny

This project models the core of the Pearls NFT tracker. The tracker ingests
on-chain transfers of the Pearl and booster ERC-1155 contracts, and the
native-token payouts sent by the payout wallets, into a Supabase ledger. It
prices them in USD through a CoinGecko price cache and derives yield figures
from them. The model covers five parts.

- **Ingestion ledger.** Each table is a map keyed by the columns its upsert
  conflicts on: `nft_transfers` on (tx_hash, log_index), `payout_transfers` on
  tx_hash, `sync_cursors` on contract_id and `price_cache` on (token, date)
  (module `Ledger`, class `Database`). The parts are:
  - the Moralis stream webhook (`Webhook`);
  - the admin backfill route, one page per source per call, each source a cursor
    state machine (`BackfillRoute`);
  - the cache-first CoinGecko lookups (`Coingecko`);
  - the Moralis client helpers (`Moralis`).
- **Yield arithmetic.** APR cap, break-even percentage, monthly payout and the
  12-month compounding loop (`Calculations`), over the constants of `Config`.
- **Compound-flag toggle.** A guard chain ending in a one-row update (`Compound`).
- **Read-side helpers.**
  - `buildInventory` (`Inventory`) and `buildTokenNameMap` (`TokenNames`).
  - Currency conversion and formatting (`Currencies`).
  - Leaderboard period boundaries (`Periods`).
  - The date strings of the price cache (`Dates`).
- **The backfill driver script.** The `.env.local` reader, the argument parser,
  the one-retry call and the page loop with its statistics (`BackfillCli`).

Shared pieces:
- `Records` holds the row shapes of `lib/pearls/types.ts`.
- `Text` holds the string operations the code relies on: `toLowerCase` on ASCII,
  `trim`, `indexOf`, `split`, `padStart`, `String(n)` and thousands grouping.
- `Wrappers` holds `Option` and `Result`.
- `Seqs` and `Sums` hold small sequence and arithmetic facts.

How the code is represented:
- Code that works by updating state is a method over the `Database` class, or
  over a class or local maps. Each such method is proved equal to a function of
  the old state.
  - Examples are the webhook's loops, the backfill's source, page and row loops,
    the price lookups, `buildInventory`'s map-filling loops,
    `buildTokenNameMap`, `loadEnvLocal`, `parseArgs` and the script's `main`.
  - The properties are proved about those functions.
- Providers are function-typed parameters, treated as oracles: Moralis pages,
  CoinGecko answers, HMAC-SHA-256, `JSON.parse`, `verifySession` and the
  backfill route as seen by the script.
- JavaScript numbers are exact reals. Wei amounts are decimal digit strings
  read as naturals, and `Number(value) / 1e18` is division by 10^18.

## Where the design description and the code differ

The model follows the code in each case below.

- **Purchase classification.** The design prefers one "any non-zero native
  value" rule. The backfill route still classifies a transfer as a purchase when
  its sender is a seller wallet (app/api/pearls/backfill/route.ts:161). It also
  stores the whole, unsplit transfer value (:167). The webhook treats any value
  above zero as a purchase and splits it over the transaction's transfers
  (app/api/pearls/webhook/moralis/route.ts:93-98).
  - `BackfillRoute.NftRow` and `Webhook.NftRow` state the two rules side by side.
- **Secret source.** The design says the admin secret travels only in a header.
  The route reads the `secret` query parameter first and the `x-admin-secret`
  header only when the query value is empty. It compares with plain `!==`
  (app/api/pearls/backfill/route.ts:20-23). See `BackfillRoute.AuthorizedFacts`.
- **Partial commits.** The design says a backfill call commits nothing when a
  page fails. In the code, rows and cursors of the sources before a failing
  fetch stay written and the call answers 500. See
  `BackfillRoute.RunSourcesStopsAtError`.
- **Price throttling.** The design calls for throttled price lookups,
  de-duplicated per batch. The code has no delay. De-duplication comes only from
  `price_cache`: see `Webhook.PriceSettles` and `Coingecko.LookupOutcome`.
- **Transaction value.** The design mentions a per-transaction value lookup.
  Neither route calls `getTransactionDetails`; both read each transfer's own
  `value`.

## Model

| member | source | states |
|---|---|---|
| Records.TokenKey | components/pearls/inventory-table.tsx:24 | the `contract_id:token_id` key starts with the contract id and one ':', and has room for exactly the token id after them (its contents are stated by `Records.TokenKeyParts`) |
| Records.TokenKeyParts | components/pearls/inventory-table.tsx:24 | the text after the ':' is exactly the token id, and for colon-free contract ids two keys are equal only when both ids are |
| Config.NativeAmount | app/api/pearls/webhook/moralis/route.ts:146 | a wei amount in native units is never negative, and is positive exactly when the wei amount is |
| Config.NativeAmountInverse | app/api/pearls/backfill/route.ts:72 | scaling the native amount back by 10^18 recovers the wei amount exactly |
| Dates.HistoryDateRoundTrip | lib/pearls/coingecko.ts:37-40 | the provider date is two-digit day, '-', two-digit month, '-', year, and reads back as the same calendar date |
| Dates.IsoDateRoundTrip | lib/pearls/coingecko.ts:20 | for years 0-9999 the cache date is ten characters YYYY-MM-DD and reads back as the same date |
| Dates.CacheKeyMatchesProviderDate | lib/pearls/coingecko.ts:20-40 | the cache key and the provider date name the same day exactly when the UTC and local dates of the moment coincide |
| Text.Lower | app/api/pearls/webhook/moralis/route.ts:27 | lower-casing keeps the length and maps every character through ASCII lower-casing |
| Text.LowerIdempotent | app/api/pearls/compound/route.ts:48 | lower-casing twice is lower-casing once |
| Text.TrimStartFacts | scripts/backfill.mjs:32 | `trimStart` removes exactly the leading whitespace: a whitespace-only prefix, with a non-whitespace first character left |
| Text.TrimEndFacts | scripts/backfill.mjs:32 | `trimEnd` removes exactly the trailing whitespace |
| Text.Trim | scripts/backfill.mjs:32 | a trimmed string has no whitespace at either end |
| Text.TrimUnchanged | scripts/backfill.mjs:39-40 | a string with no whitespace at either end is its own trim |
| Text.IndexOf | scripts/backfill.mjs:36 | `indexOf` is -1 (None) exactly when the character is absent, and otherwise the first position holding it |
| Text.Split | scripts/backfill.mjs:31 | `split` on one character gives at least one piece, and no piece contains the separator |
| Text.JoinSplit | scripts/backfill.mjs:31 | joining the pieces with the separator gives the text back |
| Text.NatString | lib/pearls/moralis.ts:63 | `String(n)` is a non-empty digit string, one digit exactly when n < 10 |
| Text.DecimalOfNatString | lib/pearls/moralis.ts:63 | `String(n)` reads back as n |
| Text.PadStart | lib/pearls/coingecko.ts:37-38 | `padStart` gives the larger of the width and the length, ends with the text and fills the front with the fill character |
| Text.PaddedRoundTrip | lib/pearls/coingecko.ts:37-38 | a zero-padded rendering is digits and still reads back as the number |
| Text.Grouped | lib/pearls/currencies.ts:26 | grouping yields digits and ',' only, changes nothing up to three digits and inserts a ',' beyond |
| Text.StripGrouped | lib/pearls/currencies.ts:26 | removing the separators from a grouped rendering gives the digits back |
| TokenNames.BuildTokenNameMap | lib/pearls/token-names.ts:6-12 | the keys are exactly the rows' `contract_id:token_id` keys; a key shared by several rows holds the name of the last of them; no rows give an empty map |
| TokenNames.AssignStep | lib/pearls/token-names.ts:8-10 | one more assignment keeps the key set equal to the rows' keys and every key named by its last row |
| TokenNames.LastIsUnique | lib/pearls/token-names.ts:9 | a row that is the last with its key is the one whose name the key holds |
| Ledger.UpsertNftIdempotent | app/api/pearls/webhook/moralis/route.ts:108-125 | upserting the same nft_transfers payload again changes nothing |
| Ledger.UpsertNftFrame | app/api/pearls/backfill/route.ts:177-194 | an nft upsert touches only its (tx_hash, log_index) row, writes the payload's columns and keeps that row's is_compounded flag (false for a new row) |
| Ledger.PayoutsKeyedByTxHash | app/api/pearls/backfill/route.ts:84-96 | two payout upserts with one tx_hash leave a single row, the later payload |
| Ledger.Database.constructor | lib/pearls/types.ts:26-83 | a database holds the given tables and the given read-only contracts and payout_wallets |
| Ledger.Database.UpsertNftRow | app/api/pearls/webhook/moralis/route.ts:108-125 | the nft_transfers upsert on (tx_hash, log_index) changes that table only |
| Ledger.Database.UpsertPayoutRow | app/api/pearls/webhook/moralis/route.ts:157-169 | the payout_transfers upsert on tx_hash changes that table only |
| Ledger.Database.UpsertCursorRow | app/api/pearls/backfill/route.ts:198-208 | the sync_cursors upsert on contract_id changes that table only |
| Ledger.Database.UpsertPriceRow | lib/pearls/coingecko.ts:59-62 | the price_cache upsert on (token, date) changes that table only |
| Ledger.Database.SetCompounded | app/api/pearls/compound/route.ts:57-60 | the update sets is_compounded of one row and changes nothing else |
| Calculations.CalculateApr | lib/pearls/calculations.ts:3-6 | the APR never exceeds 20; it is at least 12 for a non-negative count; it is 20 from 16 boosters on, and 12 + 0.5 per booster up to 16 |
| Calculations.AprMonotone | lib/pearls/calculations.ts:3-6 | more boosters never lower the APR |
| Calculations.CalculateBreakEven | lib/pearls/calculations.ts:8-12 | 100 when nothing was spent; never above 100; non-negative for non-negative earnings; earned/spent x 100 below break-even; exactly 100 from break-even on |
| Calculations.BreakEvenMonotone | lib/pearls/calculations.ts:10-11 | for a fixed positive spend, earning more never lowers the percentage |
| Calculations.CalculateMonthlyPayout | lib/pearls/calculations.ts:14-16 | the monthly payout times 1200 is holdings times APR, i.e. holdings x apr/100 per year in twelve parts |
| Calculations.YearlyOfMonthly | lib/pearls/calculations.ts:14-20 | twelve uncompounded months pay apr percent of the holdings |
| Calculations.CalculateYearlyMaxCompound | lib/pearls/calculations.ts:22-62 | the 12-month loop returns the total of the month-by-month projection, or 12 monthly payouts when the cheapest pearl costs nothing |
| Calculations.MonthlyPayoutOnlyInFallback | lib/pearls/calculations.ts:35-41 | with min(10 x POL price, 0.00075 x ETH price) <= 0 the result is 12 x monthlyPayout; otherwise the result does not depend on monthlyPayout |
| Calculations.MonthStepInvariant | lib/pearls/calculations.ts:47-59 | one month spends whole pearls and at most what is available, keeps the carryover in [0, cost), never lowers holdings and earns at least the payout on the starting holdings |
| Calculations.WholePearls | lib/pearls/calculations.ts:53-55 | floor(available/cost) x cost is at most the amount and leaves less than one pearl |
| Calculations.ProjectBounds | lib/pearls/calculations.ts:43-59 | after any number of months holdings have not fallen and the carryover lies in [0, cost) |
| Calculations.ProjectEarned | lib/pearls/calculations.ts:43-61 | after n months at least n uncompounded monthly payouts have been earned |
| Calculations.ProjectEarnedSum | lib/pearls/calculations.ts:43-61 | the same bound as a sum of n equal monthly payouts |
| Calculations.MonthlyPayoutMonotone | lib/pearls/calculations.ts:48 | larger holdings never pay less at a non-negative APR |
| Calculations.CompoundingBeatsSimple | lib/pearls/calculations.ts:22-62 | with non-negative holdings and APR the compounded yearly total is at least the uncompounded 12 x holdings x apr/1200 |
| Currencies.EffectiveRate | lib/pearls/currencies.ts:9-11 | the multiplier is never zero and is 1 for USD (and for a missing rate) |
| Currencies.ConvertUsdTo | lib/pearls/currencies.ts:4-13 | the converted amount is the USD amount times the effective rate |
| Currencies.ConvertInverse | lib/pearls/currencies.ts:4-13 | dividing by the rate used gives the USD amount back, and with non-negative rates conversion keeps the order of amounts |
| Currencies.RoundHalfUpAccuracy | lib/pearls/currencies.ts:27 | the rounded count of last-place units is within half a unit of the value |
| Currencies.FixedDigitsRoundTrip | lib/pearls/currencies.ts:25-27 | a rendering with d decimals, grouped or not, is unsigned and reads back as the same number of units |
| Currencies.ToFixedRoundTrip | lib/pearls/currencies.ts:27 | `toFixed(d)` reads back as the sign of x and |x| rounded to d decimals |
| Currencies.Symbol | lib/pearls/currencies.ts:16-23 | every symbol is non-empty and does not start with '-' |
| Currencies.FormatCurrency | lib/pearls/currencies.ts:15-30 | the text is non-empty and starts with '-' exactly for a negative amount |
| Currencies.FormatCurrencyShape | lib/pearls/currencies.ts:24-29 | the text is an optional '-', the symbol, then |amount| with two decimals, thousands-grouped exactly from 1000 on |
| Currencies.FormatCurrencyRoundTrip | lib/pearls/currencies.ts:15-30 | the text gives back the sign, the currency and |amount| rounded to the cent |
| Currencies.FormatNative | lib/pearls/currencies.ts:32-37 | the text ends with ' ' and the currency code |
| Currencies.FormatNativeRoundTrip | lib/pearls/currencies.ts:32-37 | the text gives back the sign, |amount| rounded to six decimals for ETH and two otherwise, and the currency |
| Periods.WeekDayOfDay | lib/pearls/periods.ts:8 | the weekday is in 0..6 |
| Periods.DaysInMonth | lib/pearls/periods.ts:11 | a month has 28 to 31 days |
| Periods.WeekStartFacts | lib/pearls/periods.ts:6-13 | the week start is a valid date, the day Date.UTC computes for date - diff, a Monday, and the last Monday on or before today |
| Periods.BackToMonday | lib/pearls/periods.ts:10 | diff is 6 on Sunday and weekday - 1 otherwise, lies in 0..6 and steps back to a Monday |
| Periods.WeekStartDayNumber | lib/pearls/periods.ts:11 | a date up to six days before the first of the month normalises into the previous month, or December of the previous year, as the same day |
| Periods.YearLength | lib/pearls/periods.ts:11 | consecutive years start DaysInYear apart (leap years by the 4/100/400 rule) |
| Periods.QuarterMonth | lib/pearls/periods.ts:22 | floor(m/3) x 3 is one of 0, 3, 6, 9, is at most m and m lies less than 3 above it |
| Periods.PeriodStartsOrdered | lib/pearls/periods.ts:15-29 | year start <= quarter start <= month start <= today, and the week start is within the last seven days |
| Periods.BoundariesAreMidnights | lib/pearls/periods.ts:11-17 | the week and month starts are whole days of milliseconds, at or before the clock reading |
| Moralis.ChainToMoralisId | lib/pearls/moralis.ts:9-15 | polygon is '0x89', base is '0x2105', and every other chain throws |
| Moralis.ChainOfMoralisId | app/api/pearls/webhook/moralis/route.ts:54 | the webhook accepts exactly '0x89' and '0x2105' |
| Moralis.ChainIdRoundTrip | lib/pearls/moralis.ts:9-15 | a chain's Moralis id reads back as the chain, and every id the webhook accepts is some chain's Moralis id |
| Moralis.GetHeaders | lib/pearls/moralis.ts:3-7 | the headers throw exactly when MORALIS_API_KEY is unset or empty, and otherwise carry the key and JSON accept |
| Moralis.SetParamLookup | lib/pearls/moralis.ts:62-63 | after `set`, the name reads back as the value and every other name as before |
| Moralis.BuildQuery | lib/pearls/moralis.ts:56-63 | the parameters built in place are the query of the endpoint, chain, cursor and from_block |
| Moralis.QueryFacts | lib/pearls/moralis.ts:56-63 | chain and limit '100' always; format 'decimal' exactly for the NFT endpoint; cursor exactly when truthy; from_block, in decimal, exactly when non-zero |
| Moralis.ReadPage | lib/pearls/moralis.ts:70-73 | a page is returned exactly on an OK answer, and a non-OK answer fails with its status |
| Moralis.FetchPageOutcome | lib/pearls/moralis.ts:49-104 | an unsupported chain or a missing key fails without consulting the provider; otherwise the result is the provider answer read without retry |
| Moralis.VerifyWebhookSignature | lib/pearls/moralis.ts:125-134 | false without a secret, otherwise true exactly when the signature is non-empty |
| Moralis.PlaceholderIgnoresBody | lib/pearls/moralis.ts:125-134 | the verdict is the same for every body: no digest is checked |
| Coingecko.CoinId | lib/pearls/coingecko.ts:14-17 | POL is 'matic-network', ETH is 'ethereum', and no other token has a coin |
| Coingecko.Headers | lib/pearls/coingecko.ts:6-12 | JSON accept always; the demo key header exactly when COINGECKO_API_KEY is set and non-empty |
| Coingecko.ReadAnswer | lib/pearls/coingecko.ts:47-56 | a price exactly for an OK answer carrying one, that price, and an error otherwise |
| Coingecko.PriceOf | app/api/pearls/webhook/moralis/route.ts:99-105 | the caller keeps a price exactly when the lookup did not throw |
| Coingecko.GetTokenPrice | lib/pearls/coingecko.ts:19-65 | the method's result and price_cache are those of the cache-first lookup keyed by the UTC date |
| Coingecko.GetTodayPrice | lib/pearls/coingecko.ts:67-104 | the method's result and price_cache are those of the cache-first lookup keyed by today's UTC date |
| Coingecko.CacheHit | lib/pearls/coingecko.ts:20-31 | a cached (token, UTC date) answers the cached price whatever the provider would say, and writes nothing |
| Coingecko.UnknownTokenThrows | lib/pearls/coingecko.ts:34-35 | on a miss, a token other than POL and ETH throws and writes nothing |
| Coingecko.LookupOutcome | lib/pearls/coingecko.ts:42-64 | a lookup that throws writes nothing; one that succeeds changes only its own key, which holds the returned price, so repeating it is a cache hit with the same price |
| Coingecko.ProviderRequestDate | lib/pearls/coingecko.ts:37-45 | a miss asks the provider for the local date as dd-mm-yyyy, which reads back as the local date |
| Coingecko.QuoteRates | lib/pearls/coingecko.ts:139-143 | each provider rate is taken as given; a missing EUR, GBP or CAD rate is 0.92, 0.79 or 1.36 |
| Coingecko.GetFiatRates | lib/pearls/coingecko.ts:106-154 | the method's result and price_cache are those of the cache query, fetch and three upserts |
| Coingecko.CachedRates | lib/pearls/coingecko.ts:112-124 | the count is the number of the three currencies cached for today, and each rate found is the cached one |
| Coingecko.WriteRates | lib/pearls/coingecko.ts:146-151 | the three upserts write EUR, GBP and CAD for today and nothing else |
| Coingecko.ThreeRowsCached | lib/pearls/coingecko.ts:118 | exactly three cached rows means every currency has its row for today |
| Coingecko.FiatRatesCached | lib/pearls/coingecko.ts:106-154 | after a successful fetch all three rates are cached for today, so the next call answers the same rates from the cache |
| Webhook.HexByte | app/api/pearls/webhook/moralis/route.ts:23-25 | a byte renders as its high and low hex digits |
| Webhook.ByteDigits | app/api/pearls/webhook/moralis/route.ts:23-25 | the two digits determine the byte |
| Webhook.Hex | app/api/pearls/webhook/moralis/route.ts:23-25 | the rendering has two characters per digest byte |
| Webhook.HexIsLower | app/api/pearls/webhook/moralis/route.ts:23-27 | the rendering is lower case already |
| Webhook.HexInjective | app/api/pearls/webhook/moralis/route.ts:23-25 | different digests render differently |
| Webhook.VerifySignature | app/api/pearls/webhook/moralis/route.ts:10-34 | the method answers exactly the signature predicate: a secret, equal lengths, and the lower-cased signature equal to the digest's rendering |
| Webhook.ScanEqual | app/api/pearls/webhook/moralis/route.ts:29-33 | the XOR/OR scan over every position is zero exactly when the two strings are equal |
| Webhook.SignatureFacts | app/api/pearls/webhook/moralis/route.ts:11-33 | no secret or a length mismatch rejects; the signature's letter case does not matter; the digest's own rendering is accepted |
| Webhook.SignatureBindsDigest | app/api/pearls/webhook/moralis/route.ts:23-33 | one signature accepts two bodies only if their digests agree |
| Webhook.Divisor | app/api/pearls/webhook/moralis/route.ts:97 | the divisor is at least one |
| Webhook.CountPerTx | app/api/pearls/webhook/moralis/route.ts:67-71 | the pre-count map holds exactly the hashes that occur, each with its number of entries |
| Webhook.TxValue | app/api/pearls/webhook/moralis/route.ts:93 | the value is non-negative and positive exactly when a non-zero value is present |
| Webhook.NativeShare | app/api/pearls/webhook/moralis/route.ts:96-98 | a share is stored exactly for a purchase, and shares times the entry count is the transfer's value |
| Webhook.NftRow | app/api/pearls/webhook/moralis/route.ts:93-125 | purchase exactly for a value above zero; currency only for purchases; native_value the even share; usd_value exactly for a priced purchase, share x price; from_address and to_address lower-cased; token_id defaulting to "0"; quantity the amount or 1; the row under (tx_hash, log_index or 0) |
| Webhook.PayoutRow | app/api/pearls/webhook/moralis/route.ts:146-169 | amount is value / 10^18, the chain's currency, usd_value exactly when priced, amount x price, to_address lower-cased, keyed by the tx hash |
| Webhook.Handle | app/api/pearls/webhook/moralis/route.ts:36-178 | the response and tables are those of the route's pipeline on the old tables |
| Webhook.ProcessErc1155 | app/api/pearls/webhook/moralis/route.ts:65-127 | the pre-count and the transfer loop leave the tables of the loop's definition |
| Webhook.StoreEntry | app/api/pearls/webhook/moralis/route.ts:73-125 | one entry: nothing for an unknown contract, otherwise its row, priced when a purchase |
| Webhook.ProcessNativeTransfers | app/api/pearls/webhook/moralis/route.ts:130-171 | the payout loop leaves the tables of the loop's definition |
| Webhook.EarlyExits | app/api/pearls/webhook/moralis/route.ts:41-58 | a bad signature answers 401 before parsing; an unparsable body 500; an unconfirmed body or unknown chain 200 skipped; none of them writes |
| Webhook.SharesCount | app/api/pearls/webhook/moralis/route.ts:97-98 | entries of one transaction that all store the share q add up to count x q |
| Webhook.EvenSplit | app/api/pearls/webhook/moralis/route.ts:67-71 | the native_values of the N entries of one transaction, each carrying the transaction's value, add up to that value; the count is taken before the contract filter |
| Webhook.TimesShare | app/api/pearls/webhook/moralis/route.ts:98 | n equal shares of x add back up to x |
| Webhook.PriceSettles | app/api/pearls/webhook/moralis/route.ts:99-105 | after one lookup, asking the same provider again answers the same and writes nothing |
| Webhook.NftsDecompose | app/api/pearls/webhook/moralis/route.ts:73-126 | with one provider for the whole body, the transfer loop is its rows' upserts, every lookup answering the first lookup's answer |
| Webhook.NftStepPriced | app/api/pearls/webhook/moralis/route.ts:80-125 | one iteration: an unknown contract changes nothing, a known one upserts its row with the lookup's price |
| Webhook.NativesDecompose | app/api/pearls/webhook/moralis/route.ts:130-171 | with one provider for the whole body, the payout loop is its rows' upserts, every lookup answering the first lookup's answer |
| Webhook.UpsertNftsAt | app/api/pearls/webhook/moralis/route.ts:108-125 | after a list of upserts a key holds the last payload with that key, with the table's earlier is_compounded flag; other keys keep their rows |
| Webhook.UpsertNftsTwice | app/api/pearls/webhook/moralis/route.ts:108-125 | upserting the same rows twice is upserting them once |
| Webhook.UpsertPayoutsAt | app/api/pearls/webhook/moralis/route.ts:157-169 | after a list of payout upserts a tx hash holds the last payload with that hash |
| Webhook.UpsertPayoutsTwice | app/api/pearls/webhook/moralis/route.ts:157-169 | upserting the same payout rows twice is upserting them once |
| Webhook.HandleIdempotent | app/api/pearls/webhook/moralis/route.ts:36-178 | given the same provider answers, delivering the same body again answers the same and leaves every table as after the first delivery |
| Webhook.RedeliveryWithOtherProvider | app/api/pearls/webhook/moralis/route.ts:36-178 | with a provider that now answers differently, and any API key, a redelivery answers the same and changes nothing once the first delivery was not processed or left the block's price in price_cache |
| Webhook.ReplayWithOtherProvider | app/api/pearls/webhook/moralis/route.ts:65-171 | both loops replayed against another provider change nothing once the block's price is cached |
| Webhook.CachedPriceSettled | lib/pearls/coingecko.ts:24-31 | a table holding the block's price after its lookup is the settled one, and any provider's lookup on it is a cache hit with the first answer |
| Webhook.ReplayLoops | app/api/pearls/webhook/moralis/route.ts:65-171 | running both loops again over the same entries, with the same provider, changes nothing |
| Webhook.UnknownContractsIgnored | app/api/pearls/webhook/moralis/route.ts:80-87 | entries whose contract is unknown change nothing: only the known ones matter, with the same pre-count |
| Webhook.PayoutFilter | app/api/pearls/webhook/moralis/route.ts:135-144 | a native transfer is written exactly when its lower-cased sender is a stored payout-wallet address |
| Webhook.OneRowPerPayoutTx | app/api/pearls/webhook/moralis/route.ts:157-169 | two payout transfers of one transaction leave one row, holding the later recipient |
| Webhook.PayoutStep | app/api/pearls/webhook/moralis/route.ts:157-169 | one payout-wallet transfer writes its tx hash's row, the payout row priced by the block's lookup; every other payout row, nft_transfers and sync_cursors are unchanged |
| BackfillRoute.AuthorizedFacts | app/api/pearls/backfill/route.ts:19-23 | without a configured secret nothing is authorised; a non-empty query secret decides alone; otherwise the header must equal the secret |
| BackfillRoute.Targets | app/api/pearls/backfill/route.ts:118-120 | without a target every contract runs; with one, exactly the contracts whose lower-cased address is the target |
| BackfillRoute.PayoutSources | app/api/pearls/backfill/route.ts:40-41 | each payout wallet gives two sources, polygon then base |
| BackfillRoute.NftRow | app/api/pearls/backfill/route.ts:158-194 | purchase exactly for a seller-wallet sender; native_value, the whole unsplit value, only for a purchase with a value that is not empty or '0'; currency only for purchases; usd_value exactly when that value is priced (its amount is stated by `BackfillRoute.NftRowUsd`); from_address and to_address lower-cased; token_id and timestamp as given; quantity amount or 1; keyed by (tx_hash, log_index) |
| BackfillRoute.NftRowUsd | app/api/pearls/backfill/route.ts:166-171 | a priced row's usd_value is its native value times the price |
| BackfillRoute.PayoutRow | app/api/pearls/backfill/route.ts:72-96 | amount is value / 10^18, keyed by tx hash, the wallet's id and the chain's currency, usd_value exactly when priced (its amount is stated by `BackfillRoute.PayoutRowUsd`), to_address lower-cased |
| BackfillRoute.PayoutRowUsd | app/api/pearls/backfill/route.ts:74-80 | a priced payout's usd_value is its amount times the price |
| BackfillRoute.RunSourcesStopsAtError | app/api/pearls/backfill/route.ts:57-61 | a provider error ends the run: later sources never run and what was written stays |
| BackfillRoute.CompletedSourceSkipped | app/api/pearls/backfill/route.ts:52-55 | a completed source reports processed 0, hasMore false, completed true, writes nothing and asks no provider |
| BackfillRoute.MissingContractNotCompleted | app/api/pearls/backfill/route.ts:124-134 | a contract without its contracts row reports completed false, fetches and writes nothing |
| BackfillRoute.NftWriteFacts | app/api/pearls/backfill/route.ts:177-194 | one NFT transfer adds its (tx_hash, log_index) row and touches neither payouts nor cursors |
| BackfillRoute.NftItemsRows | app/api/pearls/backfill/route.ts:158-196 | every transfer of an NFT page is counted and leaves its row; no other row appears and cursors are untouched |
| BackfillRoute.PositiveHashesSound | app/api/pearls/backfill/route.ts:71-74 | every recorded hash is that of a transfer of positive value |
| BackfillRoute.PositiveHashesComplete | app/api/pearls/backfill/route.ts:71-74 | every transfer of positive value has its hash recorded |
| BackfillRoute.PayoutWriteFacts | app/api/pearls/backfill/route.ts:84-96 | one payout transfer adds its tx_hash row and touches neither nfts nor cursors |
| BackfillRoute.PayoutItemsRows | app/api/pearls/backfill/route.ts:71-98 | a payout page counts exactly its positive transfers and leaves one row per their tx hashes; nothing else changes |
| BackfillRoute.PayoutItemsLast | app/api/pearls/backfill/route.ts:73-97 | a last transfer of value <= 0 is skipped and not counted; a positive one adds one to the count and its hash to the keys |
| BackfillRoute.NftPageAdvances | app/api/pearls/backfill/route.ts:151-208 | a fetched NFT page: all transfers counted, cursor stored with completed exactly when no next cursor came back, last_block the page's last block or the previous one (0 by default) |
| BackfillRoute.PayoutPageAdvances | app/api/pearls/backfill/route.ts:57-111 | a fetched payout page: positive transfers counted when the wallet row exists (none otherwise), cursor stored, last_block 0 on an empty page, no payout written without the wallet row |
| BackfillRoute.PayoutPageResult | app/api/pearls/backfill/route.ts:97-113 | the page reports its positive transfers, hasMore as the cursor's truthiness and completed as its negation |
| BackfillRoute.PayoutPageWrites | app/api/pearls/backfill/route.ts:64-111 | the cursor written for a payout page, and no payout row without the wallet's payout_wallets row |
| BackfillRoute.FetchErrorWritesNothing | app/api/pearls/backfill/route.ts:57-61 | a failed fetch writes nothing for that source |
| BackfillRoute.RunSourceCursors | app/api/pearls/backfill/route.ts:101-111 | a source writes at most its own cursor, never rewrites a completed one, stores the completion it reports, and completed implies no more pages |
| BackfillRoute.RunSourcesResults | app/api/pearls/backfill/route.ts:113 | one result per source, in order, under its name and chain; a contract without its row is never completed |
| BackfillRoute.RunSourceResult | app/api/pearls/backfill/route.ts:113 | a source's result carries its name and chain, and is not completed without the contracts row |
| BackfillRoute.CompletedCursorsFrozen | app/api/pearls/backfill/route.ts:46-55 | cursors completed before a run are unchanged after it |
| BackfillRoute.BackfillReport | app/api/pearls/backfill/route.ts:214-215 | one result per source; allCompleted is true with no source and false with a contract missing its row; a payout run reports two results per wallet; completed cursors survive |
| BackfillRoute.EarlyExits | app/api/pearls/backfill/route.ts:20-29 | an unauthorised request answers 401, an unconfigured service client 500, and neither writes |
| BackfillRoute.Backfill | app/api/pearls/backfill/route.ts:16-220 | the method's response and tables are the route's on the old tables |
| BackfillRoute.RunAll | app/api/pearls/backfill/route.ts:38-212 | the source loop leaves the results and tables of running the sources in order, stopping at the first error |
| BackfillRoute.RunOne | app/api/pearls/backfill/route.ts:38-212 | one source, payout or contract, as defined |
| BackfillRoute.RunPayout | app/api/pearls/backfill/route.ts:45-113 | one payout wallet on one chain: skip, fetch, write and cursor as defined |
| BackfillRoute.StorePayoutPage | app/api/pearls/backfill/route.ts:63-113 | what a fetched payout page writes and reports |
| BackfillRoute.WritePayouts | app/api/pearls/backfill/route.ts:71-98 | the payout loop writes and counts as defined |
| BackfillRoute.WritePayout | app/api/pearls/backfill/route.ts:76-96 | one priced payout upsert |
| BackfillRoute.RunNft | app/api/pearls/backfill/route.ts:122-210 | one pearl contract: missing row, skip, fetch, write and cursor as defined |
| BackfillRoute.WriteNfts | app/api/pearls/backfill/route.ts:158-196 | the NFT loop writes and counts as defined |
| BackfillRoute.WriteNft | app/api/pearls/backfill/route.ts:159-195 | one NFT upsert, priced for a valued purchase |
| BackfillCli.ParseQuotedAssignment | scripts/backfill.mjs:36-48 | `KEY="value"` reads as (KEY, value), whatever the value holds |
| BackfillCli.ParseBareAssignment | scripts/backfill.mjs:36-48 | `KEY=value` reads as (KEY, value) for an unquoted value without surrounding whitespace |
| BackfillCli.ParseAssignment | scripts/backfill.mjs:36-48 | `KEY=raw` reads as KEY and raw with one pair of matching quotes stripped, when raw has no whitespace at either end |
| BackfillCli.ParseLines | scripts/backfill.mjs:31 | one parse per line, in order |
| BackfillCli.ApplyKeeps | scripts/backfill.mjs:50-53 | loading never changes a key already set and adds exactly the keys the lines assign |
| BackfillCli.FirstAssignmentWins | scripts/backfill.mjs:50-53 | a key not already set takes the value of its first assignment |
| BackfillCli.LoadEnvFacts | scripts/backfill.mjs:21-55 | a missing file changes nothing; a readable one keeps every set key and adds exactly the assigned keys |
| BackfillCli.Environment.constructor | scripts/backfill.mjs:51-52 | the environment object holds the given variables |
| BackfillCli.LoadEnvLocal | scripts/backfill.mjs:21-55 | the loop leaves the environment defined by the file's lines |
| BackfillCli.DigitPrefixFacts | scripts/backfill.mjs:74 | parseInt reads the longest run of leading digits |
| BackfillCli.ParseIntRoundTrip | scripts/backfill.mjs:74 | parseInt reads back a rendered natural number |
| BackfillCli.ParseIntNegative | scripts/backfill.mjs:74-75 | a '-' before a rendered number reads as a negative value, which --delay refuses |
| BackfillCli.ParseIntDigits | scripts/backfill.mjs:74 | a non-empty digit string reads as its decimal value |
| BackfillCli.ParseIntNegativeDigits | scripts/backfill.mjs:74 | '-' and a non-empty digit string read as the negated value |
| BackfillCli.ParseArgs | scripts/backfill.mjs:60-90 | the loop returns the options, or the error, of the argument grammar |
| BackfillCli.ParseConcat | scripts/backfill.mjs:68-87 | arguments that parse are consumed as a unit: what follows continues from their options |
| BackfillCli.LaterFlagWins | scripts/backfill.mjs:68-87 | a later --payouts, --url or --delay overrides earlier ones; a bad delay or unknown argument fails |
| BackfillCli.DefaultOptions | scripts/backfill.mjs:62-66 | no arguments give payouts false, delay 2000 and the localhost:3434 URL |
| BackfillCli.RetryOnlyOnNetworkFailure | scripts/backfill.mjs:100-133 | at most two attempts, the second only after a network failure; a non-OK response fails with its status and is not retried |
| BackfillCli.CallReachesRoute | scripts/backfill.mjs:100-112 | the script's header passes the route's check exactly with the configured secret; --payouts asks for the payout sources, its absence for every pearl contract |
| BackfillCli.RecordPage | scripts/backfill.mjs:178-210 | the loop over a page's results leaves the statistics defined by its entries |
| BackfillCli.RecordResult | scripts/backfill.mjs:179-202 | one entry updates its statistics as defined |
| BackfillCli.RecordCounts | scripts/backfill.mjs:183-202 | an entry counts a page and its transfers only while its source is not done; completed without more pages marks it done; other keys are untouched |
| BackfillCli.DoneIsFinal | scripts/backfill.mjs:188-202 | once done, a source's pages and transfers never change |
| BackfillCli.RunEnds | scripts/backfill.mjs:162-221 | the loop stops at the first failing call (Fatal) or at the first reply with no results or allCompleted (Finished); every earlier page carried on, and a loop cut off by the page budget continued on every page |
| BackfillCli.RunKeepsDone | scripts/backfill.mjs:162-221 | counters of a source done before the loop are the same after it |
| BackfillRoute.MissingContractReport | app/api/pearls/backfill/route.ts:131-214 | an NFT run over a pearl contract without a contracts row reports at least one result and allCompleted false |
| BackfillCli.MissingContractContinues | scripts/backfill.mjs:171-214 | against the route, a page of such a run that the call answers carries on: its results are non-empty and allCompleted is false |
| BackfillCli.MissingContractNeverFinishes | scripts/backfill.mjs:161-221 | against the route, an NFT run with a pearl contract that has no contracts row never finishes: whatever the page budget, it fails or is still going, because every report has that contract's completed false |
| BackfillCli.RunCli | scripts/backfill.mjs:138-221 | the script's outcome and environment are those of loading, parsing, the secret check and the page loop |
| Compound.HandleCompound | app/api/pearls/compound/route.ts:13-70 | the method's response and nft_transfers are the guard chain's on the old table |
| Compound.UnauthenticatedReadsNothing | app/api/pearls/compound/route.ts:16-26 | a missing or unverifiable session answers 401 whatever nft_transfers holds |
| Compound.MissingFieldsBeforeLookup | app/api/pearls/compound/route.ts:31-33 | a missing transfer_id or a non-boolean is_compounded answers 400 and writes nothing |
| Compound.CompoundOutcome | app/api/pearls/compound/route.ts:44-66 | success exactly when every guard passes and the update reports no error; then exactly one row's flag is the requested value, echoed back, and nothing else changes; any other outcome writes nothing |
| Compound.GuardOrder | app/api/pearls/compound/route.ts:44-54 | unknown row 404, another wallet's row 403, a non-purchase 400, in that order |
| Compound.CompoundIdempotent | app/api/pearls/compound/route.ts:57-66 | repeating a request answers the same and leaves the table as after the first |
| Inventory.OrderFacts | components/pearls/inventory-table.tsx:21-30 | the holdings' iteration order lists every key of the rows exactly once |
| Inventory.LastMeta | components/pearls/inventory-table.tsx:32-35 | a key resolves to a metadata row carrying that key |
| Inventory.TypeOf | components/pearls/inventory-table.tsx:37-40 | a contract id resolves to the type of a contract row with that id |
| Inventory.MakeItem | components/pearls/inventory-table.tsx:48-55 | the item carries the quantity and a total of quantity x intrinsic value |
| Inventory.PositiveFacts | components/pearls/inventory-table.tsx:43-44 | the kept keys are exactly the keys with a positive net holding, distinct when the order is |
| Inventory.Insert | components/pearls/inventory-table.tsx:59-63 | inserting into a sorted list keeps it sorted and adds exactly the item |
| Inventory.SortItems | components/pearls/inventory-table.tsx:59-63 | the sort is sorted by the display preorder and a permutation of its input |
| Inventory.BuildHoldings | components/pearls/inventory-table.tsx:21-30 | each key of the rows holds received minus sent, in first-appearance order |
| Inventory.AddReceived | components/pearls/inventory-table.tsx:23-26 | the first loop leaves each key's received total |
| Inventory.SubtractSent | components/pearls/inventory-table.tsx:27-30 | the second loop leaves each key's received minus sent |
| Inventory.AppendStep | components/pearls/inventory-table.tsx:24-25 | one more row puts its key at the end of the order if new and adds its quantity to its key's total |
| Inventory.BuildMetaMap | components/pearls/inventory-table.tsx:32-35 | every key maps to its last metadata row |
| Inventory.BuildTypeMap | components/pearls/inventory-table.tsx:37-40 | every contract id maps to the type of its last row |
| Inventory.BuildInventory | components/pearls/inventory-table.tsx:15-66 | the items are the inventory's definition, sorted for display and a permutation of the pushed items |
| Inventory.CollectItems | components/pearls/inventory-table.tsx:42-56 | one item per positive holding, in the holdings' order |
| Inventory.CollectOne | components/pearls/inventory-table.tsx:43-56 | one pass pushes the key's item exactly when its quantity is positive |
| Inventory.LookupItem | components/pearls/inventory-table.tsx:45-55 | the item built from the metadata and contract-type lookups |
| Inventory.EmittedKeys | components/pearls/inventory-table.tsx:21-44 | the emitted keys are distinct and are exactly the row keys with a positive net holding |
| Inventory.UnsortedItems | components/pearls/inventory-table.tsx:42-56 | item i belongs to the i-th emitted key and carries its positive net holding |
| Inventory.ItemForFacts | components/pearls/inventory-table.tsx:45-55 | total is quantity x intrinsic value; metadata gives name, value and currency, else the key, 0 and 'POL'; a booster exactly when the key's contract has type booster |
| Inventory.LastMetaIsLast | components/pearls/inventory-table.tsx:32-35 | the resolved metadata is the last row with the key, and there is none exactly when no row has it |
| Inventory.ContractIdOfTokenKey | components/pearls/inventory-table.tsx:46 | a key's prefix before the first ':' is the contract id it was built from |
| Inventory.CompareAgrees | components/pearls/inventory-table.tsx:59-63 | the comparator and the display preorder agree for comparable currencies; two different non-POL currencies compare as "after" both ways |

## Left out

- HMAC-SHA-256, `JSON.parse`, `verifySession`, `fetch` and the Moralis and CoinGecko
  answers are oracles given as parameters. Only how the code uses their results is modelled.
- Webhook.Handle: within one delivery the CoinGecko provider is a function of the request, so
  a lookup that failed for one transfer fails for every later transfer of the same body. The
  code asks CoinGecko again for each transfer until one lookup caches the price, and a later
  answer may succeed. The model does not capture rows of one body priced differently.
- Webhook.HandleIdempotent: holds for a redelivery that meets the same provider answers. With a
  provider that changes its answer, idempotence is proved only when the first delivery cached
  the block's price (`Webhook.RedeliveryWithOtherProvider`). When the first delivery's lookup
  failed, nothing was cached (`Coingecko.LookupOutcome`), so a redelivery asks again and may
  then write a usd_value the first delivery left null.
- Strings are sequences of characters, not UTF-16 code units. The signature scan
  compares characters one by one; `toLowerCase` is modelled on ASCII letters only.
- The webhook's camelCase field fallbacks are not modelled: `transactionHash`, `from`,
  `to`, `contract`, `logIndex`, `tokenId` and `hash`. The entries carry the
  snake_case fields, absent ones as None.
- Floating point is not modelled. Numbers are exact reals, so `Number(value) / 1e18`
  and the price products are exact. `toFixed` and `toLocaleString` round half up on
  the exact value, and the NaN paths of `Number` and `parseInt` on non-numeric text
  are left out (value strings are decimal digit strings).
- Dates and time zones are parameters. A block time is given with its ISO text and its
  UTC and local calendar dates. The clock reading of the periods is given with its UTC
  fields, constrained to agree with its time value. Invalid dates are left out.
- Supabase errors on reads are treated as "no row", and write errors are not modelled,
  except that the compound route's update may report failure.
- Timestamps written by the database are not modelled: `created_at`, `updated_at` and
  generated ids. The compound route names its row by the (tx_hash, log_index) key
  that identifies it.
- Whether the service-role client can be built is a boolean parameter of the backfill
  and compound routes. The webhook, which builds it after the confirmed check, is
  modelled with it available.
- `getTransactionDetails` (lib/pearls/moralis.ts:106-123) is not modelled: no modelled
  code calls it.
- PEARL_CONTRACTS, SELLER_WALLETS and PAYOUT_WALLETS are configuration parameters;
  their definitions are not part of this model. The backfill route's view of the
  contracts and payout_wallets tables is required to be the database's own.
- The backfill route throws, and answers 500, when `contract_address` is not a string.
  The body is modelled with an optional string field, so that path is left out.
- A JSON `null` body parses, and then `body.contract_address` throws, so the backfill
  route answers 500. The modelled body is always an object (or None for a body that
  does not parse, read as `{}`), so that path is left out.
- The webhook passes a third argument to the two-argument `getTokenPrice`; it is
  ignored, as in JavaScript.
- The script's console output, `sleep` and `process.exit` are left out, and so is the
  final summary (scripts/backfill.mjs:223-239). The outcome carries the exit code and
  the statistics instead.
- BackfillCli.RunCli: the `while (true)` loop runs for at most `maxPages` pages; an
  outcome `Unfinished` stands for a loop that had not ended by then.
- Inventory.SortItems: the source's comparator is inconsistent for two different
  non-POL currencies, where JavaScript's order is unspecified. The model orders such
  items by the display preorder, treating the two currencies as equal.
- Concurrency between the webhook and backfill is not modelled. The shared upsert keys
  are what the code relies on, and they are stated in `Ledger`.
