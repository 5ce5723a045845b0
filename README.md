# ASL G/U recognizer — decision logic

This project models the decision logic of a small recognizer for two American
Sign Language letters. The recognizer takes a picture of a hand and finds the
largest contour. It measures the direction of that contour's principal axis
and folds the angle into [0, 180) degrees, since an axis has no direction.
It then names the letter by fixed bands:

- no contour gives "unknown" (the web route then replies with an error instead of the label);
- below 25 or above 155 degrees gives "G" (near-horizontal axis);
- strictly between 65 and 115 degrees gives "U" (near-vertical axis);
- anything else gives "unknown".

The comparisons are strict, so 25, 65, 115 and 155 give "unknown".

Angles are exact Dafny `real`s inside an `Option`, where `None` means no
contour was found. Letters are the datatype `Recognition.Letter`, and
`LetterText` gives the strings the recognizer returns. The image-processing
stages are not modelled. `ExtractAngle` receives their result as an abstract
input: `None`, or the eigenvector's angle in degrees.

Files: `wrappers.dfy` (the `Option` type), `recognition.dfy` (module
`Recognition`).

An angle of exactly 180 gives "G", because 180 > 155 (`FullTurnIsG`).
Folding never yields 180 in exact arithmetic (the ensures of `Normalize`).
Python's float `%` can round a tiny negative angle up to 180.0. That value
also gives "G", the same letter as the exact fold just below 180
(`SmallNegativeAxisIsG`).

## Model

| member | source | states |
|---|---|---|
| Recognition.AbsentIsUnknown | recognition.py:23-24 | a missing angle classifies as "unknown" |
| Recognition.BelowLowIsG | recognition.py:25-26 | every angle strictly below 25 classifies as "G" |
| Recognition.AboveHighIsG | recognition.py:25-26 | every angle strictly above 155 classifies as "G" |
| Recognition.BetweenIsU | recognition.py:27-28 | every angle strictly between 65 and 115 classifies as "U" |
| Recognition.BoundariesAreUnknown | recognition.py:25-30 | the exact values 25, 65, 115 and 155 classify as "unknown" (strict comparisons) |
| Recognition.GapsAreUnknown | recognition.py:25-30 | every angle in [25, 65] or [115, 155] classifies as "unknown" |
| Recognition.BandsDisjoint | recognition.py:25-28 | no angle is both in the "G" band and in the "U" band |
| Recognition.BandsPartitionReals | recognition.py:25-30 | every angle is in exactly one of the "G" band, the "U" band and the two gaps |
| Recognition.Classify | recognition.py:22-30 | each label is produced if and only if the angle lies in that label's region, so exactly one label comes out for every input |
| Recognition.TestOrderIrrelevant | recognition.py:25-30 | testing the "U" band before the "G" band gives the same label for every input |
| Recognition.FullTurnIsG | recognition.py:25-26 | the rule gives "G" for exactly 180 degrees; exact folding never produces 180, and the float value 180.0 gets the same letter as the exact fold (see `SmallNegativeAxisIsG`) |
| Recognition.LetterText | recognition.py:24-30 | the returned label string is one of "G", "U" and "unknown" |
| Recognition.LetterTextInjective | recognition.py:24-30 | the three returned strings "G", "U", "unknown" are distinct, so the string identifies the label |
| Recognition.Normalize | recognition.py:18 | the folded angle `angle % 180` lies in [0, 180) |
| Recognition.NormalizeCongruent | recognition.py:18 | the folded angle differs from the input by a whole number of half turns (some integer multiple of 180) |
| Recognition.NormalizeUnique | recognition.py:18 | any value in [0, 180) that differs from the input by a whole number of half turns is the folded angle |
| Recognition.NormalizeFixesRange | recognition.py:18 | angles already in [0, 180) are unchanged by folding |
| Recognition.NormalizeOnto | recognition.py:18 | every angle in [0, 180) is the folded form of some input, so the range of folding is exactly [0, 180) |
| Recognition.NormalizeIdempotent | recognition.py:18 | folding twice equals folding once |
| Recognition.NormalizePeriodic | recognition.py:18 | adding any whole number of half turns to the input leaves the folded angle unchanged |
| Recognition.ExtractAngle | recognition.py:13-20 | the extractor reports no angle exactly when no contour was found, and otherwise reports an angle in [0, 180) |
| Recognition.AxisDirectionIrrelevant | recognition.py:55-56 | reversing the principal eigenvector shifts its angle by half turns, which changes neither the reported angle nor the letter |
| Recognition.EveryLetterReachable | recognition.py:55-56 | each of "G", "U" and "unknown" is produced for some contour outcome, so no band is unreachable after folding |
| Recognition.SmallNegativeAxisIsG | recognition.py:55-56 | an axis angle -e just below 0 folds to exactly 180 - e and gives "G", and 180 itself (the float rounding of that fold) also gives "G" |
| Recognition.Recognize | recognition.py:55-56 | from the contour outcome to the letter: no contour gives "unknown", and otherwise each letter appears exactly on its band of the folded angle |

## Left out

- The image-processing stages of `extract_angle` (recognition.py:8-17) are not modelled. These are image decoding, grayscale conversion, Gaussian blur, Canny edge detection, contour search, largest-area selection, PCA and `arctan2`. They are library calls on floating-point pixel data. Their result enters the model as the abstract input of `ExtractAngle`.
- An unreadable image is not modelled. `imread` returns nothing, the next library call then fails, and the model has no error path for it.
- Floating-point behaviour is not modelled. All angles are exact reals. Python's float `%` can round a tiny negative input up to exactly 180.0. The model gives the exact value in [0, 180) instead.
- Recognition.Normalize: promises the range [0, 180) of exact arithmetic, not of Python floats (see the line above).
- The web front end is not modelled: the Flask app, the upload form, the upload route and `app.run` (recognition.py:3-5, 32-65). It is request handling, writing to the fixed file `uploaded_image.png`, and JSON responses, which are I/O. Only the call order of lines 55-56 (extract the angle, then classify it) is modelled, as `Recognize`.
- When no contour is found, the upload route computes the label "unknown" and then discards it, replying with the error "No contour detected" instead (recognition.py:57-58). `Recognize` gives that label; the error reply is not modelled.
- Rounding the reported angle to two decimals (recognition.py:60) is not modelled. It is display formatting of a float.
