# Iterated Prisoner's Dilemma bots, modelled in Dafny

This project models the bots of a classroom Iterated Prisoner's Dilemma
tournament. Every bot follows the same harness contract: `begin()` returns
the first move, and `turn(history)` returns each later move. `history`
holds the completed rounds, and each round pairs this bot's move (`self`)
with the opponent's move (`other`). A move is COOPERATE or DEFECT.

The model has one module per bot file and three shared modules:

- `Game` holds the vocabulary: moves, rounds, the 0/1 bit encoding, the four
  transition counters, counting helpers and the bounded buffer that evicts
  its oldest item first.
- `Patterns` holds the short-pattern search and the cyclic prediction. Two
  bots share it: `AkshitSivaraman_as658.py` (lengths 2..6 at threshold 0.9)
  and `Hunar_hb969.py` (lengths 2..7 at threshold 0.88).
- `Archetypes` holds the classifier and the decision cascade. They are
  copied verbatim into `aniket_as264.py` and into `MaaKaBharosa` of
  `Aarnav_aa557.py`.

Each bot keeps its own form:

- A bot that updates fields in place is a `class`. Its methods carry
  `modifies` frames and an invariant `Valid()`. Examples: the counters and
  buffers of the Akshit, Hunar and Arhaan bots, Jainam's mode machine,
  arinjay's cursor and Priyesi's karma.
- A bot that only computes is a set of functions. Examples: aniket,
  AtulArya, manak and `MaaKaBharosa`.
- A loop in the source is a method with a `while` loop. Each such method is
  proved against a function that specifies it. Examples: the pattern
  search, the periodic detector, the randomness indicator, the
  cooperation-streak loops and manak's ten-entry scan.

Every random draw is an explicit parameter in `[0, 1)`. Every
floating-point rate is an exact `real`.

## Model

| member | source | states |
|---|---|---|
| Game.BitOf | submissions/AkshitSivaraman_as658.py:465-466 | a move's bit is 0 exactly when the move is COOPERATE |
| Game.MoveOfBit | submissions/AkshitSivaraman_as658.py:507 | bit 0 reads back as COOPERATE and bit 1 as DEFECT |
| Game.BitRoundTrip | submissions/Hunar_hb969.py:64-65 | encoding a move as a bit and decoding it gives the move back, and the other way round |
| Game.Flip | submissions/ArhaanArora_aa916.py:88 | the flipped move always differs from the original |
| Game.Counts.Record | submissions/Hunar_hb969.py:59-63 | exactly the counter of the (own, opponent) pair grows by one; the other three keep their values; the total grows by one |
| Game.CountBound | submissions/aniket_as264.py:31 | a count never exceeds the length; it equals the length iff every item is the value; it is 0 iff no item is |
| Game.CountMoves | submissions/Priyesi_Taneja_pt372.py:19-22 | the cooperations and defections of a move list add up to its length |
| Game.ChangesBound | submissions/aniket_as264.py:34 | n moves hold at most n-1 changes, and none exactly when the list is constant |
| Game.EchoesAll | submissions/Aarnav_aa557.py:123-125 | the echo count is n-1 exactly when the opponent repeated this bot's previous move at every step |
| Game.TrailingRun | submissions/Aarnav_aa557.py:62-67 | for a run of length r, the last r items are the value and the item before them, if any, is not |
| Game.Push | submissions/Jainam_Tated_Jt887.py:35 | an append to a full buffer keeps its length at the cap, otherwise the length grows by one; the new item is last |
| Game.PushSuffix | submissions/Jainam_Tated_Jt887.py:16 | a buffer capped at `cap` that is fed every item holds exactly the last `cap` items, in order |
| Patterns.AgreeAll | submissions/AkshitSivaraman_as658.py:485 | the agreement count reaches j exactly when all j positions agree |
| Patterns.MatchesAllIffRepeats | submissions/AkshitSivaraman_as658.py:483-485 | all L positions match exactly when the last L bits equal the L bits before them |
| Patterns.Corr | submissions/AkshitSivaraman_as658.py:486 | the match fraction lies in [0, 1] and is 1.0 exactly on an exact repeat |
| Patterns.FirstRepeat | submissions/AkshitSivaraman_as658.py:479-492 | a result is the smallest length in lo..hi that qualifies; None means no length in lo..hi qualifies |
| Patterns.QualifiesIsExact | submissions/AkshitSivaraman_as658.py:487 | when hi * thr > hi - 1, a qualifying length is an exact repeat with fraction exactly 1.0 |
| Patterns.PredictAsWritten | submissions/AkshitSivaraman_as658.py:504-506 | the prediction both bots make, the stored pattern indexed by the buffer length mod L, is always one of the pattern's bits |
| Patterns.AsWrittenVersusAligned | submissions/AkshitSivaraman_as658.py:504-506 | for a pattern stored at buffer length n0 and read d rounds later, the as-written prediction equals the aligned one whenever n0 is a multiple of L; for an alternating pair it equals it exactly then, and is wrong on every round otherwise |
| Patterns.PredictAligned | submissions/AkshitSivaraman_as658.py:499-507 | the corrected prediction: at the round the pattern was stored it predicts the pattern's first bit |
| Patterns.PredictAlignedIsCorrect | submissions/AkshitSivaraman_as658.py:499-507 | against an opponent with period L, the corrected prediction is always the opponent's actual next bit |
| Patterns.AsWrittenMispredictsAlternator | submissions/AkshitSivaraman_as658.py:504-506 | on C, D, C, D, C both detectors find length 2; the as-written index predicts COOPERATE, the next move is DEFECT, and the corrected prediction says DEFECT |
| Akshit.Decode | submissions/AkshitSivaraman_as658.py:424-441 | a Move passes through; a string gives COOPERATE or DEFECT by its first letter (either case) and None otherwise; an int is COOPERATE iff 0; a `.value` is accepted only when it is 0 or 1; anything else gives None |
| Akshit.ExtractMove | submissions/AkshitSivaraman_as658.py:413-422 | an unrecognised entry, or a tuple too short for the wanted side, gives None |
| Akshit.ExtractRoundTrip | submissions/AkshitSivaraman_as658.py:413-441 | a move written in any recognised shape, inside a record or a pair, is read back as that move on both sides |
| Akshit.LastRound | submissions/AkshitSivaraman_as658.py:398-411 | with no history the previous moves are kept; otherwise each side is what the normaliser reads from the last entry, and an unrecognised entry gives no move on either side |
| Akshit.LastRoundReadsBack | submissions/AkshitSivaraman_as658.py:398-441 | a last entry written in any recognised shape, as a record or a pair, is read back as its two moves, whatever the earlier history and previous moves |
| Akshit.OpeningMove | submissions/AkshitSivaraman_as658.py:186-199 | COOPERATE below index 4; mode 0 defects iff (index+1) % 10 == 0; mode 1 cooperates iff the index is even; mode 2 cooperates iff the byte is below 204 |
| Akshit.ModeZeroDefections | submissions/AkshitSivaraman_as658.py:190-194 | over its first n <= 30 indices the mode-0 script defects 0, 1, 2 or 3 times (at indices 9, 19, 29) |
| Akshit.ModeOneDefections | submissions/AkshitSivaraman_as658.py:195-197 | over its first n <= 30 indices the mode-1 script defects (n-4)/2 times once past the four-cooperation prefix |
| Akshit.ModeOf | submissions/AkshitSivaraman_as658.py:110-112 | the opening mode is (2*bit1 + bit2) mod 3, lies below 3, and is 0 exactly when the two bits are equal |
| Akshit.PhaseOf | submissions/AkshitSivaraman_as658.py:153-159 | phase 1 iff round < 30, phase 3 iff round >= 9500, phase 2 otherwise |
| Akshit.PhaseOneOverride | submissions/AkshitSivaraman_as658.py:163-167 | an override needs round >= 3; FORGIVING and ADAPTIVE never override; ALWAYS_COOP and ALWAYS_DEF override exactly from round 3; RANDOM, PATTERN and REACTIVE exactly from round 5 |
| Akshit.PatternBasedCounter | submissions/AkshitSivaraman_as658.py:509-522 | a predicted DEFECT is answered with COOPERATE only outside phase 3 on rounds divisible by 13; a predicted COOPERATE gets COOPERATE iff (not phase 3, rate > 0.85, round % 7 != 0) or (phase 3, round % 9 == 0) |
| Akshit.IsRandomOpponent | submissions/AkshitSivaraman_as658.py:524-534 | never before round 60; a positive answer needs bias < 0.12 and indicator < 0.28; bias < 0.07 with indicator < 0.28 always gives one; in rounds 60-200 the answer is exactly the first rule; after round 200 it is exactly the first rule or bias < 0.12 with indicator < 0.2 |
| Akshit.RandomnessOf | submissions/AkshitSivaraman_as658.py:599-616 | the indicator lies in [0, 1]; it is 1.0 with fewer than 30 bits, and at most 0.75 otherwise |
| Akshit.RandomnessOfConstant | submissions/AkshitSivaraman_as658.py:599-616 | a constant window of 30 to 60 bits scores exactly 0.75 |
| Akshit.ClassifyOpponent | submissions/AkshitSivaraman_as658.py:309-353 | first match wins in the coded order: each tag, FORGIVING included, holds iff its test passes and every earlier test fails; ADAPTIVE holds iff all six tests fail |
| Akshit.Tally.Record | submissions/AkshitSivaraman_as658.py:443-460 | one recorded round bumps exactly one counter and the pair count; mirror count grows iff the moves are equal; the retaliation flag becomes true on (COOPERATE, DEFECT) and never goes back; the invariant cc+cd+dc+dd == pairs is kept |
| Akshit.PatternMemo.Guess | submissions/AkshitSivaraman_as658.py:488-489 | the guess is present exactly when a pattern is stored |
| Akshit.PatternMemo.Fade | submissions/AkshitSivaraman_as658.py:493-497 | confidence is multiplied by 0.85; the pattern is dropped exactly when the new confidence falls below 0.05, and is kept unchanged otherwise |
| Akshit.Searched | submissions/AkshitSivaraman_as658.py:475-497 | a found length stores the last L bits with confidence exactly 1.0 and they repeat the L before them; no length found means the old pattern fades |
| Akshit.FadeTimesHolds | submissions/AkshitSivaraman_as658.py:493-497 | after k fruitless searches the confidence is conf * 0.85^k, and the pattern is held exactly while that is at least 0.05 |
| Akshit.PatternLifetime | submissions/AkshitSivaraman_as658.py:493-507 | a fresh detection keeps predicting through 4 fruitless searches and stops at the 5th; it is held through 18 and dropped at the 19th |
| Akshit.Bot.constructor | submissions/AkshitSivaraman_as658.py:19-53 | round 0, no last moves, zero counters, no pattern, empty buffers |
| Akshit.Bot.Begin | submissions/AkshitSivaraman_as658.py:96-131 | everything is reset, the phase is 1, the mode comes from the two bits, the first move is COOPERATE and it is remembered |
| Akshit.Bot.UpdateTransitions | submissions/AkshitSivaraman_as658.py:443-473 | the tally records the round; each bit buffer gets the move's bit and keeps at most 600 entries, evicting the oldest; the pattern is re-searched on the new buffer |
| Akshit.Bot.UpdatePatternGuess | submissions/AkshitSivaraman_as658.py:475-497 | the search loop's result equals `Searched` on the opponent buffer |
| Akshit.Bot.RandomnessIndicator | submissions/AkshitSivaraman_as658.py:599-616 | the counting loop's result equals `RandomnessOf` of the opponent buffer |
| Akshit.Bot.RecordLastRound | submissions/AkshitSivaraman_as658.py:135-143 | the round count grows by one; a fully readable last entry is counted, both bit buffers get its bits (at most 600, oldest evicted), the pattern becomes `Searched` on the new opponent buffer, and the moves become the last moves; otherwise counters, buffers, pattern and last moves stay |
| Akshit.Bot.ChooseMove | submissions/AkshitSivaraman_as658.py:153-181 | the phase follows the round; in the scripted opening the script moves on by one and plays its move, or DEFECT on unprovoked rounds divisible by 7 from round 7; otherwise the adaptive move is played |
| Akshit.Bot.Turn | submissions/AkshitSivaraman_as658.py:133-181 | the round is recorded as in `RecordLastRound` (counters, both buffers, the re-searched pattern, or all unchanged for an unreadable entry); the opening mode stays; the move is the script's or the adaptive one by the tag computed from that new state |
| Akshit.PredictPatternMove | submissions/AkshitSivaraman_as658.py:499-507 | None iff no pattern is stored or the confidence is below 0.5; otherwise the stored pattern's bit at index (opponent buffer length mod L), 0 meaning COOPERATE, always one of the pattern's bits |
| Akshit.EvidenceOf | submissions/AkshitSivaraman_as658.py:355-368 | the classifier's inputs: total max(1, pairs), the sample counts, rates in [0, 1], the cooperation rate as an exact fraction of the counters, cd ratio 0 iff no cd round |
| Akshit.GatherContext | submissions/AkshitSivaraman_as658.py:355-396 | the context carries those statistics, forgiveness equal to P(C after D), the classifier's tag, and the pattern prediction made on the opponent buffer's length |
| Akshit.DetectionIsExact | submissions/AkshitSivaraman_as658.py:479-492 | with lengths up to 6, the 0.9 threshold admits only exact repeats, so a detection has confidence exactly 1.0 |
| Akshit.ExtremeTagsNeedEvidence | submissions/AkshitSivaraman_as658.py:327-342 | ALWAYS_COOP needs at least 12 rounds, no cd round and at least 3 own defections; ALWAYS_DEF needs at least 12 rounds and at least 6 own cooperations |
| Hunar.CoopRate | submissions/Hunar_hb969.py:68-72 | 0.5 on an empty buffer; otherwise in [0, 1], and 1.0 or 0.0 exactly when all bits are 0 or all are 1 |
| Hunar.RecentDefectRate | submissions/Hunar_hb969.py:74-77 | 0.0 on an empty buffer; otherwise in [0, 1], and 0.0 exactly when the window holds no defection |
| Hunar.CoopAndDefectRatesComplement | submissions/Hunar_hb969.py:68-77 | over the whole non-empty buffer the cooperation and defection rates add up to 1 |
| Hunar.ChangeRate | submissions/Hunar_hb969.py:148-149 | the change rate lies in [0, 1] and is 0 exactly for a constant buffer |
| Hunar.Decay | submissions/Hunar_hb969.py:94-96 | the decayed confidence is the old one times 0.85, and 0 exactly when that product is below 0.05; it never grows and strictly shrinks when positive |
| Hunar.ConfidenceLifetime | submissions/Hunar_hb969.py:94-102 | a detected pattern predicts through 4 fruitless searches and not after 5; it survives 18 and is cleared at the 19th |
| Hunar.ShortPattern.Faded | submissions/Hunar_hb969.py:93-96 | fading applies the decay and keeps the sequence while it survives |
| Hunar.DetectionIsExact | submissions/Hunar_hb969.py:84-92 | with lengths up to 7, the 0.88 threshold admits only exact repeats |
| Hunar.ShortSearched | submissions/Hunar_hb969.py:80-96 | fewer than 8 bits clear the pattern; otherwise the smallest exactly repeating length in 2..7 is stored with confidence 1.0, or the old pattern fades |
| Hunar.PredictPattern | submissions/Hunar_hb969.py:98-102 | None iff there is no pattern or the confidence is below 0.5; otherwise the pattern's bit at index (opponent buffer length mod L) as a move, always one of the pattern's bits |
| Hunar.AsWrittenMispredictsAfterNine | submissions/Hunar_hb969.py:98-102 | after C, D, ... , C (nine rounds) the stored pattern is [D, C] and the bot predicts COOPERATE, while the opponent's next move, given by the aligned prediction, is DEFECT |
| Hunar.Fracs | submissions/Hunar_hb969.py:122 | one defect fraction per residue 0..k-1 |
| Hunar.MaxOf | submissions/Hunar_hb969.py:123 | the maximum bounds every fraction and is one of them |
| Hunar.IndexOf | submissions/Hunar_hb969.py:128 | the first index holding the value |
| Hunar.PeakResidue | submissions/Hunar_hb969.py:209-210 | the residue with the largest defect fraction, the first one on ties |
| Hunar.CandidatesAt | submissions/Hunar_hb969.py:113-129 | the candidate for period k carries its spread and its sample support |
| Hunar.StepLeads | submissions/Hunar_hb969.py:128-129 | one comparison keeps the best supported spread so far, and strict > keeps the earlier period on ties |
| Hunar.ScanLeads | submissions/Hunar_hb969.py:113-129 | the scan over k = 2..8 ends with the leading candidate |
| Hunar.BestPeriodLeads | submissions/Hunar_hb969.py:112-129 | the best period is supported, has the largest spread among supported periods, and is the first with it |
| Hunar.PeriodicGuess.Faded | submissions/Hunar_hb969.py:137-140 | the periodic confidence decays, and a period that is still held is the old one |
| Hunar.PeriodicSearched | submissions/Hunar_hb969.py:105-140 | fewer than 10 bits clear the guess; a detection stores the best period and spread; otherwise the guess fades |
| Hunar.DetectedPeriodIsSupported | submissions/Hunar_hb969.py:128-132 | a detected period lies in 2..8, has enough samples at its peak residue, and has spread above 0.45 |
| Hunar.DetectedPeriodHasLargestSpread | submissions/Hunar_hb969.py:128-130 | no supported period has a larger spread than the detected one |
| Hunar.DetectedPeriodIsFirst | submissions/Hunar_hb969.py:128 | every supported smaller period has strictly smaller spread |
| Hunar.Classify | submissions/Hunar_hb969.py:143-156 | UNKNOWN below 6 bits, then COOPERATOR, DEFECTOR, TIT_FOR_TAT, PATTERN, NOISY in order, each iff its test passes and the earlier ones fail |
| Hunar.ConstantOpponentsClassified | submissions/Hunar_hb969.py:143-151 | six or more identical bits are classified COOPERATOR (all 0) or DEFECTOR (all 1) |
| Hunar.ExploitAllowance | submissions/Hunar_hb969.py:160-161 | the allowance b is ceil(0.02 * max(1, 10000 - seen)): 50(b-1) < remaining <= 50b, so b >= 1 |
| Hunar.BudgetAfter | submissions/Hunar_hb969.py:158-161 | a set budget is never reset; an unset one becomes the allowance |
| Hunar.UseProbability | submissions/Hunar_hb969.py:232-234 | the chance is at most 0.06; it is non-negative while used <= budget and at most 0 once used >= budget, so exactly 0 when the budget is just used up |
| Hunar.Randomized | submissions/Hunar_hb969.py:268-270 | without the 0.005 draw the move is unchanged |
| Hunar.Fallback | submissions/Hunar_hb969.py:283-306 | the endgame draw forces DEFECT; otherwise, without randomisation, an expected-value gap of 0.06 or more picks the better move |
| Hunar.CalibratorMove | submissions/Hunar_hb969.py:199-222 | DEFECT iff the next round's residue mod k is not the peak residue |
| Hunar.ExploitOutcome | submissions/Hunar_hb969.py:225-240 | the budget is set once; the bot DEFECTs exactly when the exploit draw is below the use probability of the current streak, budget and round; `used` grows by one exactly on that DEFECT and never passes the budget |
| Hunar.LaterMove | submissions/Hunar_hb969.py:242-306 | pattern players: DEFECT unless `PredictPattern` on the buffer's length says COOPERATE, and then DEFECT iff the draw < 0.9; tit-for-tat, without the randomisation draw: DEFECT iff the opponent's last bit is a defection and the forgiveness draw is at least 0.02; noisy: DEFECT iff recent defect rate > 0.45 and no forgiveness; adaptive with recent defect rate < 0.25 mirrors as tit-for-tat does; adaptive at 0.25 or more, a pattern player without a stored pattern, and UNKNOWN, COOPERATOR or DEFECTOR tags go to the expected-value `Fallback` |
| Hunar.Decide | submissions/Hunar_hb969.py:186-306 | always-defectors get DEFECT with the budget untouched; the calibrator schedule applies while detected, with the budget and `used` untouched; otherwise a cooperator, or a cooperation rate above 0.92, gets the budgeted `ExploitOutcome`, and every other opponent gets `LaterMove` with the budget untouched; `used` never passes the budget and grows only on a DEFECT |
| Hunar.EntryMoves | submissions/Hunar_hb969.py:168-179 | a round is counted only when both sides are Moves, read from attributes or from a pair |
| Hunar.LastEntryMoves | submissions/Hunar_hb969.py:166-179 | nothing on an empty history; otherwise the last entry's moves |
| Hunar.Bot.constructor | submissions/Hunar_hb969.py:24-41 | empty buffers, zero counters, no pattern, no period, no budget |
| Hunar.Bot.Begin | submissions/Hunar_hb969.py:43-56 | everything is reset and the first move is COOPERATE |
| Hunar.Bot.UpdateCounts | submissions/Hunar_hb969.py:59-66 | one counter and `total_seen` grow by one; both buffers get the bits and stay within 2000 entries; cc+cd+dc+dd == total_seen is kept |
| Hunar.Bot.CoopStreak | submissions/Hunar_hb969.py:228-231 | the loop returns the trailing run of 0-bits |
| Hunar.Bot.SetExploitBudget | submissions/Hunar_hb969.py:158-161 | the budget becomes `BudgetAfter` of the old one |
| Hunar.Bot.Respond | submissions/Hunar_hb969.py:193-306 | the move and the budget fields are those of `Decide` |
| Hunar.Bot.CalibratorSchedule | submissions/Hunar_hb969.py:199-222 | the residue loop's move equals `CalibratorMove` |
| Hunar.Bot.ExploitCooperator | submissions/Hunar_hb969.py:225-240 | the branch equals `ExploitOutcome` and keeps used <= budget |
| Hunar.Bot.LaterBranches | submissions/Hunar_hb969.py:242-306 | the later branches equal `LaterMove` |
| Hunar.Bot.Advance | submissions/Hunar_hb969.py:186-306 | both detectors update as `PeriodicSearched` and `ShortSearched` specify; the calibration flag is set only while total_seen <= 40; the move is `Decide`'s |
| Hunar.Bot.Turn | submissions/Hunar_hb969.py:164-184 | a readable last round is recorded; while total_seen < 6 the move is COOPERATE and detectors, calibration flag and budget stay; afterwards both detectors update as `PeriodicSearched` and `ShortSearched` on the new buffer and the move, budget and used count are `Decide`'s |
| Hunar.DetectShortPattern | submissions/Hunar_hb969.py:80-96 | the loop over lengths equals `ShortSearched` |
| Hunar.DetectPeriod | submissions/Hunar_hb969.py:105-140 | the detector equals `PeriodicSearched`, and the flag is set only while seen <= 40 |
| Hunar.ScanPeriods | submissions/Hunar_hb969.py:112-129 | the loop over k = 2..8 equals `BestPeriod` |
| Hunar.PeriodFigures | submissions/Hunar_hb969.py:115-128 | the loop's confidence and support equal the spread and support of period k |
| Hunar.ResidueFractions | submissions/Hunar_hb969.py:115-122 | the array loop yields the residue fractions and the sample counts per residue |
| Arhaan.Tally.Record | submissions/ArhaanArora_aa916.py:100-108 | exactly one of defections and cooperations grows; a cooperation resets the run; run <= longest run is kept |
| Arhaan.Mark | submissions/ArhaanArora_aa916.py:112-116 | the mark is 1 iff the opponent defected while this bot cooperated |
| Arhaan.Windows.Record | submissions/ArhaanArora_aa916.py:110-116 | all three deques stay within 24 entries |
| Arhaan.Memory.Record | submissions/ArhaanArora_aa916.py:100-116 | the counters and the three windows record the round together, and their invariants are kept |
| Arhaan.TallyCounts | submissions/ArhaanArora_aa916.py:100-108 | the counters equal the numbers of opponent defections and cooperations in the history |
| Arhaan.TallyStreak | submissions/ArhaanArora_aa916.py:100-108 | the consecutive-defection counter equals the trailing run of opponent defections |
| Arhaan.TallyLongest | submissions/ArhaanArora_aa916.py:103-105 | max_consecutive_defections >= consecutive_opponent_defections always |
| Arhaan.WindowsSuffix | submissions/ArhaanArora_aa916.py:110-116 | the three deques hold the last 24 opponent moves, own moves and exploit marks |
| Arhaan.WindowDefectionsCounted | submissions/ArhaanArora_aa916.py:100-110 | the window never shows more defections than the running counter |
| Arhaan.TftScore | submissions/ArhaanArora_aa916.py:241-248 | the score lies in [0, 1] and is 0.0 with fewer than two entries |
| Arhaan.TftScoreOne | submissions/ArhaanArora_aa916.py:241-248 | the score is 1.0 exactly when the opponent echoed this bot's previous move everywhere in the window |
| Arhaan.LagTwoAll | submissions/ArhaanArora_aa916.py:254 | the lag-two count is maximal exactly when the window has period 2 |
| Arhaan.AlternatorScore | submissions/ArhaanArora_aa916.py:250-255 | the score lies in [0, 1] and is 0.0 below 8 entries |
| Arhaan.AlternatorScoreOne | submissions/ArhaanArora_aa916.py:250-255 | with 8 or more entries the score is 1.0 exactly when the window has period 2 |
| Arhaan.WindowRate | submissions/ArhaanArora_aa916.py:202-205 | the recent cooperation rate lies in [0, 1] |
| Arhaan.NoFlags | submissions/ArhaanArora_aa916.py:64-71 | the cleared flags satisfy the pairing and exclusion invariants |
| Arhaan.Opening | submissions/ArhaanArora_aa916.py:155-199 | turn 1 cooperates; two early defections or four by turn 4-5 set bully and DEFECT; tags are never cleared; a DEFECT comes only from bully, sucker or the turn-2 rule |
| Arhaan.ShiftedIsNotSucker | submissions/ArhaanArora_aa916.py:214-230 | a window that turned hostile can never also read as a sucker |
| Arhaan.Reclassify | submissions/ArhaanArora_aa916.py:201-239 | defense == bully; bully excludes sucker, tit-for-tat and alternator; sucker excludes tit-for-tat and alternator; each tag holds iff its test passes and no earlier tag holds |
| Arhaan.Endgame | submissions/ArhaanArora_aa916.py:286-313 | never COOPERATE; DEFECT when one round remains; None while the opponent never defected and more than one remains; DEFECT late against a defecting, uncooperative window |
| Arhaan.TwoTats | submissions/ArhaanArora_aa916.py:264-284 | two straight opponent defections give DEFECT; an opponent cooperation gives COOPERATE; one defection with two or more exploit marks gives DEFECT |
| Arhaan.BullyAlwaysDefected | submissions/ArhaanArora_aa916.py:136-137 | a bully tag means DEFECT on every later turn |
| Arhaan.TwoDefectionsAnswered | submissions/ArhaanArora_aa916.py:136-153 | without a tit-for-tat tag, two straight opponent defections always get DEFECT |
| Arhaan.Randomize | submissions/ArhaanArora_aa916.py:84-89 | the move is kept exactly when the draw is not below the flip probability |
| Arhaan.Bot.constructor | submissions/ArhaanArora_aa916.py:18-52 | nothing recorded and no flags |
| Arhaan.Bot.Begin | submissions/ArhaanArora_aa916.py:54-82 | all state is reset, the draws are kept, and the move is COOPERATE |
| Arhaan.Bot.RecordRound | submissions/ArhaanArora_aa916.py:96-116 | the counters and the three deques record the last round, and the bookkeeping stays that of the recorded history |
| Arhaan.Bot.GenerousTitForTwoTats | submissions/ArhaanArora_aa916.py:264-284 | the move is `TwoTats`; two defections bump the streak; an opponent cooperation zeroes streak and forgiveness attempt |
| Arhaan.Bot.LaterTurn | submissions/ArhaanArora_aa916.py:130-153 | the move is `Later`, and the streak fields change only when the tit-for-two-tats rule is reached |
| Arhaan.Bot.Respond | submissions/ArhaanArora_aa916.py:118-153 | the opening rule in turns 1-5, which leaves the recheck round and the write-only streak fields alone; or, with classification complete and kept so, the recheck every 8 rounds followed by `Later`; in both cases through the random flip |
| Arhaan.Bot.Turn | submissions/ArhaanArora_aa916.py:91-153 | an empty history gives the flipped COOPERATE and changes no flag, completion, recheck or streak field; otherwise the last round is recorded and the move and fields are as in `Respond` |
| Archetypes.DefectRate | submissions/aniket_as264.py:31 | the defect rate lies in [0, 1]; 0.0 iff every move is COOPERATE; 1.0 iff every move is DEFECT |
| Archetypes.Stability | submissions/aniket_as264.py:34-35 | the stability lies in (0, 1], and is 1.0 exactly when the opponent never changed moves |
| Archetypes.Classify | submissions/aniket_as264.py:27-46 | UNKNOWN iff fewer than 50 moves; then COOPERATOR, NOISY, DEFECTOR, PUNISHER, BALANCED, each iff its test passes and the earlier ones fail |
| Archetypes.AllCooperateIsCooperator | submissions/aniket_as264.py:37-38 | 50 or more cooperations and nothing else make a COOPERATOR |
| Archetypes.AllDefectIsDefector | submissions/aniket_as264.py:41-42 | 50 or more defections and nothing else make a DEFECTOR |
| Archetypes.MostlyDefectingIsDefector | submissions/aniket_as264.py:37-42 | an opponent that defected in more than half of 50 or more moves is a DEFECTOR |
| Archetypes.Recent | submissions/aniket_as264.py:62 | the last 100 moves, or all of them if fewer |
| Archetypes.CoopProb | submissions/aniket_as264.py:102 | the cooperation probability lies in [0.3, 1], is at least 1 - rate, and equals it for rate <= 0.7 |
| Archetypes.Decide | submissions/aniket_as264.py:74-103 | COOPERATOR: DEFECT iff the draw < exploit rate; PUNISHER mirrors; NOISY: DEFECT iff rate > 0.4; DEFECTOR: DEFECT; BALANCED/UNKNOWN: mirror below 0.25, DEFECT above 0.7, else COOPERATE iff the draw < 1 - rate |
| Archetypes.SteadyOpponents | submissions/aniket_as264.py:74-93 | a steady cooperator is exploited exactly on draws under the exploit rate; a steady defector always meets DEFECT |
| Aniket.Begin | submissions/aniket_as264.py:23-24 | the first move is COOPERATE |
| Aniket.ExploitRate | submissions/aniket_as264.py:76 | the rate lies in [0.002, 0.05], grows by 0.001 per hundred rounds, and is capped at 0.05 from round 4800 |
| Aniket.Turn | submissions/aniket_as264.py:48-103 | COOPERATE in the first 10 rounds and on a forgiveness draw; from round 9900 DEFECT iff the draw < 0.9; otherwise the archetype cascade with the recent rate and the round's exploit rate |
| Aniket.CooperatorsCooperatedWith | submissions/aniket_as264.py:52-79 | a pure cooperator gets COOPERATE under 50 rounds, and afterwards DEFECT only on draws under the exploit rate |
| Aniket.DefectorsDefectedAgainst | submissions/aniket_as264.py:91-93 | a pure defector meets DEFECT from round 50 until the endgame, forgiveness aside |
| Aarnav.Begin | submissions/Aarnav_aa557.py:19-20 | the first move is COOPERATE |
| Aarnav.DynamicExploitRate | submissions/Aarnav_aa557.py:41-47 | the rate lies in [0, 0.05], is the base rate for streaks under 10, and is 0.05 from streak 12 |
| Aarnav.DynamicExploitRateMonotone | submissions/Aarnav_aa557.py:41-47 | a longer cooperation streak never lowers the exploit rate |
| Aarnav.ForgivenessProb | submissions/Aarnav_aa557.py:69 | the forgiveness chance is at least 0.015, exactly that with no streak, and at most 0.065 for streaks up to 100 |
| Aarnav.CoopStreak | submissions/Aarnav_aa557.py:62-67 | the loop returns the trailing run of opponent cooperations: all those moves are COOPERATE and the one before is DEFECT |
| Aarnav.Turn | submissions/Aarnav_aa557.py:49-100 | COOPERATE in the first 10 rounds and on a forgiveness draw; from round 9900 COOPERATOR/BALANCED get DEFECT iff the draw < 0.95 and the rest DEFECT; otherwise the archetype cascade with the streak's exploit rate |
| Aarnav.SteadyCooperatorExploitedAtMaxRate | submissions/Aarnav_aa557.py:73-84 | a pure cooperator of 50 or more moves is exploited exactly on draws under 0.05 |
| Aarnav.Scores | submissions/Aarnav_aa557.py:179-187 | the payoff table (3,3), (0,5), (5,0), (1,1) |
| Aarnav.ScoresSwap | submissions/Aarnav_aa557.py:179-187 | swapping the moves swaps the payoffs |
| Aarnav.ScoresDilemma | submissions/Aarnav_aa557.py:179-187 | temptation > reward > punishment > sucker, DEFECT dominates, and mutual cooperation beats alternating exploitation |
| Aarnav.AdaptiveWindow | submissions/Aarnav_aa557.py:149 | the window lies in [6, 100]: 6 below 60 rounds and 100 from 1000 rounds |
| Aarnav.Retaliations | submissions/Aarnav_aa557.py:128-133 | retaliations never exceed the bot's own defections that could provoke them |
| Aarnav.AdaptiveBot.Classify | submissions/Aarnav_aa557.py:112-139 | "unknown" iff fewer than 6 rounds in the window; then always-cooperate, always-defect, tit-for-tat, retaliator, cooperative, each iff its test passes and the earlier ones fail |
| Aarnav.AdaptiveBot.EchoingOpponentIsTitForTat | submissions/Aarnav_aa557.py:123-127 | an opponent that echoed this bot's previous move throughout a window of 6 or more, and played both moves, is labelled tit-for-tat |
| Aarnav.AdaptiveBot.EchoingIsEchoesMostly | submissions/Aarnav_aa557.py:123-125 | perfect echoing passes the 80% tit-for-tat test |
| Aarnav.AdaptiveBot.Respond | submissions/Aarnav_aa557.py:159-177 | tit-for-tat mirrors; cooperative labels get DEFECT iff the draw < 0.7; always-defect gets DEFECT; retaliator rules; random: DEFECT after more than 7 of the last 10 defections, else mirror; unknown mirrors |
| Aarnav.AdaptiveBot.constructor | submissions/Aarnav_aa557.py:107 | the last forced defection starts at -100 |
| Aarnav.AdaptiveBot.Begin | submissions/Aarnav_aa557.py:109-110 | the first move is COOPERATE |
| Aarnav.AdaptiveBot.Turn | submissions/Aarnav_aa557.py:141-177 | COOPERATE on an empty history; a forced exploration DEFECT happens only when N - last > 2 and records N; otherwise the field is unchanged and the move is `Respond` of the label; two forced defections are at least 3 rounds apart |
| Jainam.CoopRate | submissions/Jainam_Tated_Jt887.py:23-26 | 0.5 on an empty window; otherwise in [0, 1], 1.0 iff all cooperations, 0.0 iff none |
| Jainam.NextMode | submissions/Jainam_Tated_Jt887.py:40-45 | RANDOM to DEFECT only when the rate < 1 - 0.8; DEFECT to RANDOM only when the rate > 0.6; rates in between keep the mode |
| Jainam.NextModeSettles | submissions/Jainam_Tated_Jt887.py:40-45 | at most one transition per turn: checking again at the same rate changes nothing |
| Jainam.ModeMove | submissions/Jainam_Tated_Jt887.py:48-51 | DEFECT mode defects; RANDOM mode cooperates iff the coin < 0.5 |
| Jainam.Bot.constructor | submissions/Jainam_Tated_Jt887.py:14-21 | an empty window and RANDOM mode |
| Jainam.Bot.Begin | submissions/Jainam_Tated_Jt887.py:28-31 | the window is cleared, the mode is RANDOM, and the move is the coin's |
| Jainam.Bot.Turn | submissions/Jainam_Tated_Jt887.py:33-51 | the last opponent move is pushed into the 30-entry window; the mode follows `NextMode`; the move follows the new mode |
| Arinjay.Rebuild | submissions/arinjaysingh_as770.py:26-34 | a pattern ending in DEFECT is rebuilt as [DEFECT]; one ending in COOPERATE as [COOPERATE, DEFECT] |
| Arinjay.RebuildReachable | submissions/arinjaysingh_as770.py:26-34 | every pattern the bot can hold ends in DEFECT, so a rebuild always yields [DEFECT] |
| Arinjay.Step | submissions/arinjaysingh_as770.py:16-40 | after the opening the cursor is always in range and the move is the pattern's item at it; running off the end rebuilds to [DEFECT] with cursor 0 |
| Arinjay.SettledDefects | submissions/arinjaysingh_as770.py:25-40 | once the cursor has run off the pattern after the opening, every later move is DEFECT |
| Arinjay.DefectsFromFourthMove | submissions/arinjaysingh_as770.py:16-40 | after `begin` the turns play COOPERATE, DEFECT, then DEFECT for ever |
| Arinjay.Bot.constructor | submissions/arinjaysingh_as770.py:8-10 | cursor 0 on the opening pattern |
| Arinjay.Bot.Begin | submissions/arinjaysingh_as770.py:12-14 | the cursor resets to 0 but the pattern is kept; the move is DEFECT |
| Arinjay.Bot.Turn | submissions/arinjaysingh_as770.py:16-40 | the move and the new state are those of `Step`; indexing the pattern is always in range |
| AtulArya.Begin | submissions/AtulArya_aa740.py:24-26 | the first move is COOPERATE, the schedule's move for round 1 |
| AtulArya.Turn | submissions/AtulArya_aa740.py:28-37 | for round numbers up to 30, DEFECT iff the round number is divisible by 4; afterwards DEFECT |
| AtulArya.TurnDependsOnlyOnLength | submissions/AtulArya_aa740.py:28-37 | two histories of equal length get the same move |
| AtulArya.CalibrationDefections | submissions/AtulArya_aa740.py:32-34 | rounds 1..n, n <= 30, hold exactly n / 4 defections |
| AtulArya.SevenCalibrationDefections | submissions/AtulArya_aa740.py:32-34 | the thirty calibration rounds hold exactly 7 defections |
| AtulArya.DefectionsAfterWindow | submissions/AtulArya_aa740.py:36-37 | every round past 30 adds one defection |
| Priyesi.KarmaOf | submissions/Priyesi_Taneja_pt372.py:17-22 | karma after n rounds with c opponent cooperations is 4c - 5(n - c) |
| Priyesi.KarmaPositiveIff | submissions/Priyesi_Taneja_pt372.py:25-28 | karma is positive iff the opponent cooperated in more than 5 rounds of every 9 |
| Priyesi.KarmaStep | submissions/Priyesi_Taneja_pt372.py:17-22 | one more opponent move adds +4 or -5 |
| Priyesi.Decide | submissions/Priyesi_Taneja_pt372.py:23-28 | under the 2% draw the random choice; otherwise COOPERATE iff karma > 0, so karma 0 gives DEFECT |
| Priyesi.Bot.constructor | submissions/Priyesi_Taneja_pt372.py:6-9 | the bot starts not begun |
| Priyesi.Bot.Begin | submissions/Priyesi_Taneja_pt372.py:11-14 | karma is 0 and the move is COOPERATE |
| Priyesi.Bot.Turn | submissions/Priyesi_Taneja_pt372.py:16-28 | a non-empty history adds +4 or -5 by the opponent's last move, an empty one leaves karma unchanged; karma equals `KarmaOf` of the moves counted; the move is `Decide`'s |
| Manak.Begin | submissions/manak_mk499.py:10-12 | the first move is DEFECT |
| Manak.Respond | submissions/manak_mk499.py:14-35 | DEFECT when the last ten entries all compare equal to COOPERATE; otherwise the opponent's last move, or no move (IndexError) on an empty history |
| Manak.ScanLastTen | submissions/manak_mk499.py:15-20 | the scan reads 1 to 10 entries, stops at the first one that does not match, and flags exactly when the ten-entry test fails |
| Manak.Turn | submissions/manak_mk499.py:14-35 | the loop-and-break code computes `Respond` |
| Manak.AsWrittenNeverDefectsOnTrust | submissions/manak_mk499.py:15-25 | with entries compared to a Move as written, every non-empty history gets the opponent's last move back |
| Manak.TenCooperationsExample | submissions/manak_mk499.py:15-25 | ten mutual cooperations: as written the bot cooperates, as intended it defects |
| Manak.IntendedDefectsIff | submissions/manak_mk499.py:15-35 | comparing the opponent's move, the bot defects iff the opponent defected last or cooperated in each of the last ten rounds |

## Left out

- Random draws (`random.random`, `random.choice`, `random.uniform`, `true_random_bit`, `_random_threshold`) are parameters. No statement is made about their distribution or about expected payoffs.
- The quantum-randomness fetch over HTTP and the `os.urandom` fallback in `AkshitSivaraman_as658.py` are network and OS entropy. They are not modelled; mode 2 of the opening script takes its random byte as a parameter.
- The online logistic predictor and its feature builder in `AkshitSivaraman_as658.py` use `math.exp`, `math.sqrt` and weight decay. They are not modelled.
- Akshit.Bot.Turn: `_adaptive_move` (the phase-2/3 policy) is an input `adaptiveMove`, because it depends on the predictor's output and on several random thresholds. The parts of that policy modelled on their own are `PatternBasedCounter`, `IsRandomOpponent` and the classifier.
- `_phase_two_decision` in `AkshitSivaraman_as658.py` is never called and is not modelled.
- Floating-point rates and thresholds are exact reals. Jainam's `1 - 0.8` is 0.19999999999999996 as a float; the model takes 0.2, and no window of at most 30 moves has a rate between the two.
- Hunar.Bot.Begin: `Hunar_hb969.py` spells its initialiser `_init_` (line 7), so Python never calls it. Then `begin` fails at `self.opp_bits.clear()` (line 45) with AttributeError, unless the `Strategy` base class creates those attributes; `ping_game_theory` is not part of this model. The model assumes `__init__` was meant: the constructor sets the values lines 8-41 set, and `begin` runs before `turn`.
- `ArhaanArora_aa916.py` writes `is_tit_for_tagt` on one branch. That write is a no-op, because nothing reads the field. `last_forgiveness_turn` is never read and is not modelled. `randomize` is always True.
- Priyesi.Bot.Turn: `karma` is undefined in Python until `begin` runs; the model requires `begin` first.
- Manak.Respond: Python's IndexError on an empty history is the `None` result.
- `MaaKaBharosa.turn` builds `my_moves` and never uses it; the list is not modelled.
- Aarnav.AdaptiveBot.Begin: `begin` does not reset `last_forced_defect`, so a second match inherits it. The model keeps that behaviour.
- The harness, the match loop with its score printing, `StrategyTester` runs and the author/strategy metadata strings are not modelled.
- `hariharan_hm491.py` and `Akshaj_as677.py` always return a constant move and are not modelled.
- Hunar.Fallback: with the near-tie coin or the randomisation draw taken, the contract says nothing about the move beyond the endgame rule.
- Hunar.Randomized: only the case without the 0.005 draw is stated.

## Findings

| source | as written | input that shows it | evidently intended | confidence | as-written member | corrected member |
|---|---|---|---|---|---|---|
| submissions/AkshitSivaraman_as658.py:504-506 (also submissions/Hunar_hb969.py:100-101) | the prediction index is the buffer length mod L, which ignores where the stored L bits start | alternating opponent C, D, C, D, C: the pattern [D, C] is stored after 5 rounds and the index 5 mod 2 = 1 predicts COOPERATE; the opponent plays DEFECT next | predict the bit (rounds since storing) mod L into the stored window | not executed | Patterns.PredictAsWritten, which Hunar.PredictPattern and Akshit.PredictPatternMove use (Patterns.AsWrittenMispredictsAlternator, Patterns.AsWrittenVersusAligned, Hunar.AsWrittenMispredictsAfterNine) | Patterns.PredictAligned (Patterns.PredictAlignedIsCorrect) |
| submissions/manak_mk499.py:18 | `history[i] != Move.COOPERATE` compares a whole history entry with a Move, which is never equal, so the ten-round rule never fires | ten rounds of mutual cooperation: the bot cooperates | compare the opponent's move, `history[i].other` | not executed | Manak.AsWrittenNeverDefectsOnTrust (Manak.TenCooperationsExample) | Manak.IntendedDefectsIff (`Respond` with the comparison `OpponentIs`) |
