# HTTP status codes (RFC 9110 section 15) in Dafny

A model of a PHP library that catalogues HTTP status codes. It has two parts.

- `HttpStatus` (`http_status.dfy`) is the catalogue. It has one named constant per
  registered code, plus the deprecated second name `PayloadTooLarge` for 413, a
  reason-phrase table and a description table, and five class
  predicates. The predicates are the half-open ranges [100,200), [200,300),
  [300,400), [400,500) and [500,600). Lookups are total: a code the table does not
  list gives the empty string.
- `HttpStatusCode` (`http_status_code.dfy`) is an immutable object around one
  integer. The constructor stores the integer without any check. Every query
  passes the stored code to the catalogue. Its string form is the code in decimal.

`Decimal` (`decimal.dfy`) models PHP's `(string)` cast of an `int`. That is a
leading `-` for negatives, then the digits without leading zeros. A parser for
exactly those strings is proved to invert it in both directions. `Wrappers`
(`wrappers.dfy`) holds the `Option` type.

How the PHP source maps onto Dafny:

- Each PHP table is a literal array keyed by the constants. In the model it is a
  function with one `match` case per entry (`ReasonEntry`, `DescriptionEntry`),
  and each case is keyed by the same named constant as the PHP entry
  (`ContentTooLarge` for 413, as in the PHP arrays). The constant maps `Reasons`
  and `Descriptions` are built from those functions. The cases carry the same
  strings as the PHP arrays. Each description is its own named constant, with
  the text copied verbatim.
- The map comprehension needs a finite domain. It ranges over [0,1000), which
  holds every three-digit code. `ReasonEntry`, `DescriptionEntry` and
  `TableKeysClassified` prove that every key lies in [100,600) anyway.
- A `match` rather than a map display holds the entries because a 44-entry map
  display is beyond what the verifier can reason about within its resource
  budget. Five lemmas, one per class, check that every named constant reaches
  the entry that carries its phrase.
- The PHP field `$code` is written only by the constructor. In the model it is a
  `const` field, so the type system guarantees that no member changes it.

## Model

| member | source | states |
|---|---|---|
| `HttpStatus.GetReason` | src/HttpStatus.php:749-752 | the result is "" exactly when the code has no entry in the reason table; otherwise it is that entry |
| `HttpStatus.Reason` | src/HttpStatus.php:738-741 | the deprecated alias returns the same as GetReason for every integer |
| `HttpStatus.GetDescription` | src/HttpStatus.php:760-763 | the result is "" exactly when the code has no entry in the description table; otherwise it is that entry |
| `HttpStatus.GetAllReasons` | src/HttpStatus.php:770-773 | the returned map's keys are exactly the codes for which GetReason is non-empty, and at each key it agrees with GetReason |
| `HttpStatus.GetAllDescriptions` | src/HttpStatus.php:781-784 | the returned map's keys are exactly the codes for which GetDescription is non-empty, and at each key it agrees with GetDescription |
| `HttpStatus.ClassesPartition` | src/HttpStatus.php:682-729 | inside [100,600) exactly one of the five class predicates holds; below 100 or from 600 on none does |
| `HttpStatus.IsInformational` | src/HttpStatus.php:682-685 | holds exactly on [100,200), which are the codes whose class digit (first character of a three-digit decimal text) is 1 |
| `HttpStatus.IsSuccessful` | src/HttpStatus.php:693-696 | holds exactly on [200,300), the codes whose class digit is 2 |
| `HttpStatus.IsRedirection` | src/HttpStatus.php:704-707 | holds exactly on [300,400), the codes whose class digit is 3 |
| `HttpStatus.IsClientError` | src/HttpStatus.php:715-718 | holds exactly on [400,500), the codes whose class digit is 4 |
| `HttpStatus.IsServerError` | src/HttpStatus.php:726-729 | holds exactly on [500,600), the codes whose class digit is 5 |
| `HttpStatus.ClassDigitOf` | src/HttpStatus.php:682-729 | a code has a class digit exactly when it lies in [100,1000), and that digit is its hundreds digit; negative codes, codes below 100 and codes from 1000 on have none, so they are in no class |
| `HttpStatus.ReasonEntry` | src/HttpStatus.php:577-622 | the reason-phrase table entry by entry, with the PHP array's 44 codes and phrases; every listed code lies in [100,600) and its phrase is non-empty |
| `HttpStatus.DescriptionEntry` | src/HttpStatus.php:629-674 | the description table entry by entry, with the PHP array's 44 codes and texts; every listed code lies in [100,600) and its text is non-empty |
| `HttpStatus.InformationalNamesListed` | src/HttpStatus.php:22-36 | the constants CONTINUE and SWITCHING_PROTOCOLS are keys of the reason table, each with the phrase it is named after |
| `HttpStatus.SuccessfulNamesListed` | src/HttpStatus.php:46-112 | the seven named 2xx constants are keys of the reason table, each with the phrase it is named after |
| `HttpStatus.RedirectionNamesListed` | src/HttpStatus.php:126-213 | the eight named 3xx constants are keys of the reason table, each with the phrase it is named after |
| `HttpStatus.ClientErrorNamesListed` | src/HttpStatus.php:225-501 | the twenty-two named 4xx constants, the deprecated PAYLOAD_TOO_LARGE included, are keys of the reason table, each with the phrase it is named after |
| `HttpStatus.ServerErrorNamesListed` | src/HttpStatus.php:512-570 | the six named 5xx constants are keys of the reason table, each with the phrase it is named after |
| `HttpStatus.TableKeysClassified` | src/HttpStatus.php:577-622 | every code in the reason table lies in [100,600) and is in exactly one class |
| `HttpStatus.TablesShareKeys` | src/HttpStatus.php:577-674 | the reason table and the description table have the same set of codes |
| `HttpStatus.TableValuesNonEmpty` | src/HttpStatus.php:577-674 | no entry of either table is the empty string, so "" from a lookup always means "not listed" |
| `HttpStatus.PayloadTooLargeIsContentTooLarge` | src/HttpStatus.php:393-402 | the deprecated PAYLOAD_TOO_LARGE and CONTENT_TOO_LARGE are both 413, so both names reach the single entry "Content Too Large" and one description |
| `HttpStatus.LookupExamples` | tests/HttpStatusTest.php:45-73 | reason of 200 is "OK" (also via the alias), reason of 999999 is "", description of 200 is non-empty, the full reason table maps 200 to "OK", the description table is non-empty |
| `Decimal.NatToDecimal` | src/HttpStatusCode.php:114-117 | the digits of a natural number are non-empty, have no superfluous leading zero, and read back as that number |
| `Decimal.IntToDecimal` | src/HttpStatusCode.php:114-117 | the text of any integer, negative ones included, is in canonical form, and parsing it yields the integer |
| `Decimal.ParseDecimal` | src/HttpStatusCode.php:114-117 | the parser accepts exactly the canonical texts: an optional '-' before a non-zero magnitude, digits, no leading zeros |
| `Decimal.ParseThenRender` | src/HttpStatusCode.php:114-117 | every text the parser accepts is the decimal text of the integer it denotes (the other direction of the round trip) |
| `Decimal.RenderingIsInjective` | src/HttpStatusCode.php:114-117 | distinct integers have distinct decimal texts |
| `Decimal.ThreeDigits` | src/HttpStatusCode.php:114-117 | a natural number has a three-character text exactly when it lies in [100,1000), and then the text starts with its hundreds digit |
| `HttpStatusCode.HttpStatusCode.constructor` | src/HttpStatusCode.php:21-24 | any integer is accepted (no precondition, no clamping) and stored as given |
| `HttpStatusCode.HttpStatusCode.GetCode` | src/HttpStatusCode.php:29-32 | returns the stored code, which is the constructor argument |
| `HttpStatusCode.HttpStatusCode.GetReason` | src/HttpStatusCode.php:40-43 | equals the catalogue's GetReason of the stored code; "" exactly when the code is not listed |
| `HttpStatusCode.HttpStatusCode.GetDescription` | src/HttpStatusCode.php:51-54 | equals the catalogue's GetDescription of the stored code; "" exactly when the code is not listed |
| `HttpStatusCode.HttpStatusCode.IsInformational` | src/HttpStatusCode.php:62-65 | equals the catalogue's IsInformational of the stored code |
| `HttpStatusCode.HttpStatusCode.IsSuccessful` | src/HttpStatusCode.php:73-76 | equals the catalogue's IsSuccessful of the stored code |
| `HttpStatusCode.HttpStatusCode.IsRedirection` | src/HttpStatusCode.php:84-87 | equals the catalogue's IsRedirection of the stored code |
| `HttpStatusCode.HttpStatusCode.IsClientError` | src/HttpStatusCode.php:95-98 | equals the catalogue's IsClientError of the stored code |
| `HttpStatusCode.HttpStatusCode.IsServerError` | src/HttpStatusCode.php:106-109 | equals the catalogue's IsServerError of the stored code |
| `HttpStatusCode.HttpStatusCode.ToString` | src/HttpStatusCode.php:114-117 | the string form is the canonical decimal text of the stored code, and parsing it gives the code back |
| `HttpStatusCode.ToStringDeterminesCode` | src/HttpStatusCode.php:114-117 | two objects with the same string form hold the same code |
| `HttpStatusCode.AtMostOneClass` | src/HttpStatusCode.php:62-109 | for any stored code at most one class query is true, and one is exactly when the code lies in [100,600) |
| `HttpStatusCode.Code200` | tests/HttpStatusCodeTest.php:10-30 | the object for 200 has code 200, string form "200", phrase "OK" and a non-empty description, and it is successful, not informational |
| `HttpStatusCode.ClassExamples` | tests/HttpStatusCodeTest.php:32-74 | 100 is informational and no other class; 201 is successful and not informational; 301, 404 and 500 are redirection, client error and server error |
| `HttpStatusCode.NegativeCode` | src/HttpStatusCode.php:21-32 | a negative code such as -42 is kept as it is, prints as "-42", has no phrase and no description, and is in no class |

## Left out

- PHP's 64-bit `int` bounds are not modelled: codes are unbounded integers. Nothing in the library depends on overflow.
- PHP's coercion of numeric strings to `int` at a typed parameter is a runtime behaviour, not library logic (the tests pass `'200'` and `'999'`).
- Late static binding (`static::`) and overriding the tables in a subclass are not modelled: the repository has no subclass, so every lookup reads the tables shown here.
- HttpStatusCode.HttpStatusCode.constructor: `$code` is `protected` and the PHP class is not `final`, so a subclass could overwrite it after construction. The model's `const` field is stronger than that; the repository has no such subclass.
- Copy-on-return of the PHP arrays from `getAllReasons` and `getAllDescriptions` needs no model: a Dafny `map` is an immutable value.
- HttpStatus.GetAllReasons and HttpStatus.GetAllDescriptions: the PHP arrays they return are ordered, with the codes in table order from 100 to 505. A Dafny `map` has no order, so that iteration order is not modelled. Nothing in the library depends on it.
- The prose doc comments of the constants are not modelled. The description strings are copied verbatim, but nothing is proved about their wording beyond non-emptiness.
- The tests check the class predicates only up to 198, 298, and so on. The code and the model use the full half-open ranges up to 200, 300, and so on.
