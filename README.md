# GWTP samples: login flow, entity/DTO conversion and dispatch actions

A Dafny model of the few parts of the GWTP sample applications that carry
behaviour of their own:

- **LoginPresenter** (carstore client). On reveal it hides the action bar.
  If the browser holds a non-empty login cookie, it disables the login button
  and sends a silent cookie login. When a login answer arrives, it stores a
  remember-me cookie if the user is logged in. A cookie answer re-enables the
  button. An accepted login fills the current user, navigates to the REDIRECT
  parameter or the default page, fires the login event and posts a success
  message. Refused credentials post an error. A transport failure posts
  "unable to contact server". The cookie's domain is inferred from the host
  page's base URL (`getDomain`) and its max-age is computed in Java int
  arithmetic.
- **CarProperties** (carstore server). A datastore entity whose setters each
  update one field, plus null-safe conversions to and from CarPropertiesDto.
- **GetProductHandler** (mobile sample server). Looks a product up by id, or
  throws "Product not found".
- **GetProductListAction** (mobile sample shared code). An immutable action
  over one `int` with equals, hashCode and toString.

Layout: `wrappers.dfy` holds Option and Result for null and thrown
exceptions. `java_int.dfy` holds 32-bit int wrap-around and decimal text.
`cookie_domain.dfy` models `getDomain`. `login_flow.dfy` holds the pure
reference transitions of the login presenter and the lemmas about them.
`login_presenter.dfy` holds the presenter as a class whose methods follow the
Java one by one and are proved equal to those transitions.
`car_properties.dfy`, `get_product_handler.dfy` and
`get_product_list_action.dfy` model the other three classes.

The asynchronous dispatcher is replaced by its two outcomes. A dispatched
action is appended to the presenter's `dispatched` log, and the answer is a
later call of `OnSuccess(result)` or `OnFailure()`. Events fired on the event
bus (action bar visibility, user login, display message) are appended, in
order, to an `events` log. Cookies handed to the session resource's
`rememberMe` are appended to a `rememberMe` log.

Inputs from outside the model:
- The browser's cookie jar is a field the presenter only reads.
- The host page's base URL is part of the presenter's `Config`.
- The clock (`new Date()`) is a `now` parameter.
- Some constants come from classes outside this model: the login cookie's
  name, the REDIRECT parameter's name, the default page after login, and the
  Action interface's DEFAULT_SERVICE_NAME. They are parameters.
- Car.create and Car.createDto are function parameters. Nothing is assumed
  about them.
- The product database is a `map<int, Product>`.

Two facts about the code that the model states:
- The failure callback does not re-enable the login button, so a failed
  silent cookie login leaves it disabled
  (`LoginFlow.FailedCookieLoginLeavesButtonDisabled`).
- The cookie's max-age is the number the code computes,
  14 * 24 * 60 * 60 * 1000 = 1,209,600,000 (`LoginFlow.MaxAge`).

## Model

| member | source | states |
|---|---|---|
| `JavaInt.Wrap` | gwtp-samples/gwtp-sample-mobile/src/main/java/com/gwtplatform/samples/mobile/shared/dispatch/GetProductListAction.java:65 | the int an exact result becomes is congruent to it modulo 2^32, and is the result itself when that fits in an int |
| `JavaInt.WrapUnique` | gwtp-samples/gwtp-sample-mobile/src/main/java/com/gwtplatform/samples/mobile/shared/dispatch/GetProductListAction.java:65 | Java int arithmetic is well defined: only one int is congruent to a given integer modulo 2^32 |
| `JavaInt.NatToDecimal` | gwtp-samples/gwtp-sample-mobile/src/main/java/com/gwtplatform/samples/mobile/shared/dispatch/GetProductListAction.java:71 | the decimal digits of a non-negative int are non-empty, all digits, with no leading zero |
| `JavaInt.ToDecimal` | gwtp-samples/gwtp-sample-mobile/src/main/java/com/gwtplatform/samples/mobile/shared/dispatch/GetProductListAction.java:71 | an int's decimal text starts with '-' exactly when the int is negative, is otherwise all digits, and has no leading zero ("0" is the only text starting with '0', and no '0' follows the '-') |
| `JavaInt.NatDecimalRoundTrip` | gwtp-samples/gwtp-sample-mobile/src/main/java/com/gwtplatform/samples/mobile/shared/dispatch/GetProductListAction.java:71 | reading the digits back gives the number |
| `JavaInt.DecimalRoundTrip` | gwtp-samples/gwtp-sample-mobile/src/main/java/com/gwtplatform/samples/mobile/shared/dispatch/GetProductListAction.java:71 | parsing an int's decimal text gives back the int |
| `JavaInt.ToDecimalInjective` | gwtp-samples/gwtp-sample-mobile/src/main/java/com/gwtplatform/samples/mobile/shared/dispatch/GetProductListAction.java:71 | two ints have the same decimal text exactly when they are equal |
| `CookieDomain.AfterLastDoubleSlash` | carstore/src/main/java/com/gwtplatform/carstore/client/application/login/LoginPresenter.java:185 | what the first replacement keeps is never longer than its input |
| `CookieDomain.AfterLastDoubleSlashIsSuffix` | carstore/src/main/java/com/gwtplatform/carstore/client/application/login/LoginPresenter.java:185 | what the first replacement keeps is a suffix of its input |
| `CookieDomain.AfterLastDoubleSlashSpec` | carstore/src/main/java/com/gwtplatform/carstore/client/application/login/LoginPresenter.java:185 | the first replacement leaves a string without "//" alone, and otherwise keeps exactly what follows the last "//" |
| `CookieDomain.AfterLastDoubleSlashHasNone` | carstore/src/main/java/com/gwtplatform/carstore/client/application/login/LoginPresenter.java:185 | no "//" is left after the first replacement |
| `CookieDomain.RemoveSlashes` | carstore/src/main/java/com/gwtplatform/carstore/client/application/login/LoginPresenter.java:186 | the second replacement leaves no '/', and keeps every other character with its multiplicity |
| `CookieDomain.RemoveSlashesKeepsOthers` | carstore/src/main/java/com/gwtplatform/carstore/client/application/login/LoginPresenter.java:186 | a string without '/' passes the second replacement unchanged |
| `CookieDomain.TruncateAtColon` | carstore/src/main/java/com/gwtplatform/carstore/client/application/login/LoginPresenter.java:187 | the third replacement gives the longest prefix without ':' (it stops only at a ':' or at the end) |
| `CookieDomain.StrippedHost` | carstore/src/main/java/com/gwtplatform/carstore/client/application/login/LoginPresenter.java:184-187 | after the three replacements no '/' and no ':' is left |
| `CookieDomain.EqualsIgnoreCase` | carstore/src/main/java/com/gwtplatform/carstore/client/application/login/LoginPresenter.java:189 | strings equal ignoring case have the same length, and every string equals itself ignoring case |
| `CookieDomain.GetDomain` | carstore/src/main/java/com/gwtplatform/carstore/client/application/login/LoginPresenter.java:183-190 | the domain is null exactly when the stripped host equals "localhost" ignoring case; otherwise it is the stripped host, with no '/' and no ':' |
| `CookieDomain.StrippedHostOf` | carstore/src/main/java/com/gwtplatform/carstore/client/application/login/LoginPresenter.java:184-187 | the three replacements reduce scheme "//" host ":" port "/" to the host |
| `CookieDomain.GetDomainOfHostAndPort` | carstore/src/main/java/com/gwtplatform/carstore/client/application/login/LoginPresenter.java:183-190 | for a URL scheme "//" host ":" port "/", the domain is the host, or null for localhost in any case |
| `CookieDomain.GetDomainOfUrlWithPort` | carstore/src/main/java/com/gwtplatform/carstore/client/application/login/LoginPresenter.java:183-190 | "http://example.com:8080/" gives the domain "example.com" |
| `CookieDomain.GetDomainOfLocalhost` | carstore/src/main/java/com/gwtplatform/carstore/client/application/login/LoginPresenter.java:183-190 | "http://LocalHost:8888/" gives no domain |
| `LoginFlow.StoredCookie` | carstore/src/main/java/com/gwtplatform/carstore/client/application/login/LoginPresenter.java:198-200 | the stored cookie is present exactly when the browser holds a cookie under the login cookie's name, and is then that cookie's value |
| `LoginFlow.IsNullOrEmpty` | carstore/src/main/java/com/gwtplatform/carstore/client/application/login/LoginPresenter.java:111 | a cookie counts as set exactly when it is present and non-empty |
| `LoginFlow.RedirectTarget` | carstore/src/main/java/com/gwtplatform/carstore/client/application/login/LoginPresenter.java:163-165 | the target is the current place's REDIRECT parameter when it has one, and the default page otherwise |
| `LoginFlow.Login` | carstore/src/main/java/com/gwtplatform/carstore/client/application/login/LoginPresenter.java:101-105 | a credential login appends exactly one credentials action to the dispatched log and changes nothing else |
| `LoginFlow.OnReveal` | carstore/src/main/java/com/gwtplatform/carstore/client/application/login/LoginPresenter.java:107-114 | reveal appends the hide-action-bar event, dispatches one action exactly when the stored cookie is set, and leaves user, place and cookies alone |
| `LoginFlow.OnFailure` | carstore/src/main/java/com/gwtplatform/carstore/client/application/login/LoginPresenter.java:118-124 | a failure appends exactly the unable-to-contact-server error event and changes nothing else, so the button stays as it was |
| `LoginFlow.OnSuccess` | carstore/src/main/java/com/gwtplatform/carstore/client/application/login/LoginPresenter.java:126-160 | an answer dispatches nothing; a cookie answer leaves the button enabled, a credential answer leaves it as it was; a logged-out answer leaves user and place unchanged |
| `LoginFlow.MaxAge` | carstore/src/main/java/com/gwtplatform/carstore/client/application/login/LoginPresenter.java:174 | REMEMBER_ME_DAYS * 24 * 60 * 60 * 1000 in int arithmetic does not overflow and equals 1,209,600,000 |
| `LoginFlow.RememberMeCookie` | carstore/src/main/java/com/gwtplatform/carstore/client/application/login/LoginPresenter.java:171-177 | the remember-me cookie has the login cookie's name, the given value, path "/", the inferred domain, an empty comment, max-age 1,209,600,000 and secure false |
| `LoginFlow.RevealDispatchesOnlyStoredCookie` | carstore/src/main/java/com/gwtplatform/carstore/client/application/login/LoginPresenter.java:107-114 | reveal hides the action bar. It dispatches a cookie login exactly when the stored cookie is non-null and non-empty, and then with the button disabled. User, place and cookies are unchanged |
| `LoginFlow.SuccessWritesCookieIffLoggedIn` | carstore/src/main/java/com/gwtplatform/carstore/client/application/login/LoginPresenter.java:127-131 | every successful answer, cookie or credential, writes the remember-me cookie if and only if the user is logged in |
| `LoginFlow.CookieAnswerReenablesButton` | carstore/src/main/java/com/gwtplatform/carstore/client/application/login/LoginPresenter.java:141-147 | a cookie answer always re-enables the button; a refused cookie changes nothing else |
| `LoginFlow.AcceptedLogin` | carstore/src/main/java/com/gwtplatform/carstore/client/application/login/LoginPresenter.java:149-156 | an accepted login fills the current user from the DTO and navigates to the REDIRECT parameter or the default page. It fires one login event, then one success message, and dispatches nothing |
| `LoginFlow.RejectedCredentials` | carstore/src/main/java/com/gwtplatform/carstore/client/application/login/LoginPresenter.java:157-159 | refused credentials post exactly one invalid-email-or-password error and change nothing else |
| `LoginFlow.FailurePostsOneError` | carstore/src/main/java/com/gwtplatform/carstore/client/application/login/LoginPresenter.java:119-124 | a transport failure appends exactly one event, the unable-to-contact-server error message, fires no login event and changes nothing else |
| `LoginFlow.FailedCookieLoginLeavesButtonDisabled` | carstore/src/main/java/com/gwtplatform/carstore/client/application/login/LoginPresenter.java:192-195 | a silent cookie login whose request fails leaves the login button disabled |
| `LoginFlow.SuccessMessagesAndLoginEvents` | carstore/src/main/java/com/gwtplatform/carstore/client/application/login/LoginPresenter.java:127-160 | a successful answer adds one success message and one login event when logged in. Otherwise it adds one error for credentials and nothing for a cookie |
| `LoginPresenters.LoginPresenter.constructor` | carstore/src/main/java/com/gwtplatform/carstore/client/application/login/LoginPresenter.java:80-99 | a new presenter has not dispatched, fired or stored anything and has no current user |
| `LoginPresenters.LoginPresenter.GetLoggedInCookie` | carstore/src/main/java/com/gwtplatform/carstore/client/application/login/LoginPresenter.java:198-200 | the login cookie read from the browser: present exactly when the browser holds it, and then its value |
| `LoginPresenters.LoginPresenter.Login` | carstore/src/main/java/com/gwtplatform/carstore/client/application/login/LoginPresenter.java:101-105 | a credential login is dispatched, as in LoginFlow.Login |
| `LoginPresenters.LoginPresenter.CallServerLoginAction` | carstore/src/main/java/com/gwtplatform/carstore/client/application/login/LoginPresenter.java:116-117 | the action is handed to the dispatcher |
| `LoginPresenters.LoginPresenter.OnReveal` | carstore/src/main/java/com/gwtplatform/carstore/client/application/login/LoginPresenter.java:107-114 | the new state is LoginFlow.OnReveal of the old one |
| `LoginPresenters.LoginPresenter.TryLoggingInWithCookieFirst` | carstore/src/main/java/com/gwtplatform/carstore/client/application/login/LoginPresenter.java:192-196 | the button is disabled and a login with the stored cookie is dispatched |
| `LoginPresenters.LoginPresenter.OnFailure` | carstore/src/main/java/com/gwtplatform/carstore/client/application/login/LoginPresenter.java:118-124 | the new state is LoginFlow.OnFailure of the old one |
| `LoginPresenters.LoginPresenter.OnSuccess` | carstore/src/main/java/com/gwtplatform/carstore/client/application/login/LoginPresenter.java:126-137 | the new state is LoginFlow.OnSuccess of the old one and the answer |
| `LoginPresenters.LoginPresenter.OnLoginCallSucceededForCookie` | carstore/src/main/java/com/gwtplatform/carstore/client/application/login/LoginPresenter.java:141-147 | the button is re-enabled. A logged-in user is then handled as a successful login; otherwise nothing else changes |
| `LoginPresenters.LoginPresenter.OnLoginCallSucceeded` | carstore/src/main/java/com/gwtplatform/carstore/client/application/login/LoginPresenter.java:149-160 | logged in: the user is filled, the app navigates, and a login event then a success message are fired. Otherwise one invalid-credentials error is fired, with user and place unchanged |
| `LoginPresenters.LoginPresenter.RedirectToLoggedOnPage` | carstore/src/main/java/com/gwtplatform/carstore/client/application/login/LoginPresenter.java:162-169 | the new place is named by the REDIRECT parameter of the current place, or by the default page when it has none, and carries no parameters |
| `LoginPresenters.LoginPresenter.SetLoggedInCookie` | carstore/src/main/java/com/gwtplatform/carstore/client/application/login/LoginPresenter.java:171-181 | exactly one cookie, LoginFlow.RememberMeCookie of the value, is handed to the session resource |
| `CarPropertiesDomain.CarProperties.constructor` | carstore/src/main/java/com/gwtplatform/carstore/server/dao/domain/CarProperties.java:39-43 | the default entity has someString "", someNumber 0, someDate the current time, and no car |
| `CarPropertiesDomain.CarProperties.WithScalars` | carstore/src/main/java/com/gwtplatform/carstore/server/dao/domain/CarProperties.java:45-51 | the scalars are the given ones and there is no car |
| `CarPropertiesDomain.CarProperties.GetCar` | carstore/src/main/java/com/gwtplatform/carstore/server/dao/domain/CarProperties.java:53-55 | the car is null exactly when no car is referenced, and otherwise the referenced car |
| `CarPropertiesDomain.CarProperties.SetCar` | carstore/src/main/java/com/gwtplatform/carstore/server/dao/domain/CarProperties.java:57-63 | a null car clears the reference, a non-null car is referenced; no other field can change |
| `CarPropertiesDomain.CarProperties.SetId` | carstore/src/main/java/com/gwtplatform/carstore/server/dao/domain/CarProperties.java:111 | sets the id and only the id |
| `CarPropertiesDomain.CarProperties.SetSomeString` | carstore/src/main/java/com/gwtplatform/carstore/server/dao/domain/CarProperties.java:69-71 | sets someString and only someString |
| `CarPropertiesDomain.CarProperties.SetSomeNumber` | carstore/src/main/java/com/gwtplatform/carstore/server/dao/domain/CarProperties.java:77-79 | sets someNumber and only someNumber |
| `CarPropertiesDomain.CarProperties.SetSomeDate` | carstore/src/main/java/com/gwtplatform/carstore/server/dao/domain/CarProperties.java:85-87 | sets someDate and only someDate |
| `CarPropertiesDomain.CreateDto` | carstore/src/main/java/com/gwtplatform/carstore/server/dao/domain/CarProperties.java:89-102 | null gives null; otherwise the DTO carries the entity's id and scalars and Car.createDto of its car |
| `CarPropertiesDomain.Create` | carstore/src/main/java/com/gwtplatform/carstore/server/dao/domain/CarProperties.java:104-117 | null gives null; otherwise a fresh entity carries the DTO's id and scalars and Car.create of its car |
| `CarPropertiesDomain.EntityRoundTrip` | carstore/src/main/java/com/gwtplatform/carstore/server/dao/domain/CarProperties.java:94-99 | create(createDto(x)) agrees with x on id, someString, someNumber and someDate; its car is Car.create(Car.createDto(x's car)) |
| `CarPropertiesDomain.DtoRoundTrip` | carstore/src/main/java/com/gwtplatform/carstore/server/dao/domain/CarProperties.java:109-114 | createDto(create(d)) agrees with d on id, someString, someNumber and someDate; its car is Car.createDto(Car.create(d's car)) |
| `GetProductHandlers.Execute` | gwtp-samples/gwtp-sample-mobile/src/main/java/com/gwtplatform/samples/mobile/server/dispatch/GetProductHandler.java:39-48 | fails with "Product not found" exactly when the database has no product for the id; otherwise returns exactly the stored product |
| `GetProductHandlers.ExecuteReadsOnlyItsEntry` | gwtp-samples/gwtp-sample-mobile/src/main/java/com/gwtplatform/samples/mobile/server/dispatch/GetProductHandler.java:41 | the answer depends on the database only through the entry for the requested id |
| `GetProductHandlers.ExecuteFindsWhatWasStored` | gwtp-samples/gwtp-sample-mobile/src/main/java/com/gwtplatform/samples/mobile/server/dispatch/GetProductHandler.java:41-47 | a product stored under an id is what execute returns for that id |
| `GetProductHandlers.Undo` | gwtp-samples/gwtp-sample-mobile/src/main/java/com/gwtplatform/samples/mobile/server/dispatch/GetProductHandler.java:55-59 | undo leaves the database as it was |
| `GetProductHandlers.UndoChangesNoAnswer` | gwtp-samples/gwtp-sample-mobile/src/main/java/com/gwtplatform/samples/mobile/server/dispatch/GetProductHandler.java:55-59 | every lookup after an undo answers as before |
| `GetProductHandlers.GetActionType` | gwtp-samples/gwtp-sample-mobile/src/main/java/com/gwtplatform/samples/mobile/server/dispatch/GetProductHandler.java:50-53 | the handled action type is GetProductAction |
| `GetProductListActions.GetProductListAction.constructor` | gwtp-samples/gwtp-sample-mobile/src/main/java/com/gwtplatform/samples/mobile/shared/dispatch/GetProductListAction.java:24-26 | getFlags returns the value passed in; the field is constant afterwards |
| `GetProductListActions.GetProductListAction.Default` | gwtp-samples/gwtp-sample-mobile/src/main/java/com/gwtplatform/samples/mobile/shared/dispatch/GetProductListAction.java:28-30 | the serialisation constructor leaves flags at 0 |
| `GetProductListActions.GetProductListAction.GetFlags` | gwtp-samples/gwtp-sample-mobile/src/main/java/com/gwtplatform/samples/mobile/shared/dispatch/GetProductListAction.java:42-44 | getFlags returns the flags the action was built with |
| `GetProductListActions.GetProductListAction.GetServiceName` | gwtp-samples/gwtp-sample-mobile/src/main/java/com/gwtplatform/samples/mobile/shared/dispatch/GetProductListAction.java:32-35 | the service name is DEFAULT_SERVICE_NAME followed by "GetProductList" |
| `GetProductListActions.GetProductListAction.IsSecured` | gwtp-samples/gwtp-sample-mobile/src/main/java/com/gwtplatform/samples/mobile/shared/dispatch/GetProductListAction.java:37-40 | the action is not secured |
| `GetProductListActions.GetProductListAction.Equals` | gwtp-samples/gwtp-sample-mobile/src/main/java/com/gwtplatform/samples/mobile/shared/dispatch/GetProductListAction.java:46-60 | true for the same object, false for null and for another class; for another instance, true exactly when the flags are equal |
| `GetProductListActions.GetProductListAction.HashCode` | gwtp-samples/gwtp-sample-mobile/src/main/java/com/gwtplatform/samples/mobile/shared/dispatch/GetProductListAction.java:62-67 | the hash is 851 + flags, minus 2^32 when that sum overflows an int |
| `GetProductListActions.GetProductListAction.ToString` | gwtp-samples/gwtp-sample-mobile/src/main/java/com/gwtplatform/samples/mobile/shared/dispatch/GetProductListAction.java:69-72 | the text is "GetProductListAction[", then exactly the flags' decimal text (no leading zeros), then "]"; the flags can be read back from it |
| `GetProductListActions.EqualsIffSameFlags` | gwtp-samples/gwtp-sample-mobile/src/main/java/com/gwtplatform/samples/mobile/shared/dispatch/GetProductListAction.java:57-59 | two instances are equal if and only if their flags are equal |
| `GetProductListActions.EqualsSymmetric` | gwtp-samples/gwtp-sample-mobile/src/main/java/com/gwtplatform/samples/mobile/shared/dispatch/GetProductListAction.java:46-60 | equals is symmetric |
| `GetProductListActions.EqualsTransitive` | gwtp-samples/gwtp-sample-mobile/src/main/java/com/gwtplatform/samples/mobile/shared/dispatch/GetProductListAction.java:46-60 | equals is transitive |
| `GetProductListActions.HashCodeConsistentWithEquals` | gwtp-samples/gwtp-sample-mobile/src/main/java/com/gwtplatform/samples/mobile/shared/dispatch/GetProductListAction.java:59-67 | equal instances have equal hash codes, and since adding 851 is a bijection on int, unequal ones have unequal hash codes |
| `GetProductListActions.ToStringDistinguishesFlags` | gwtp-samples/gwtp-sample-mobile/src/main/java/com/gwtplatform/samples/mobile/shared/dispatch/GetProductListAction.java:69-72 | two instances have the same text exactly when they are equal |

## Left out

- The asynchronous dispatcher and GWT's AsyncCallback scheduling. The
  model's callbacks run when called, once per dispatched action, and the
  model does not check that pairing.
- The event bus, the PlaceManager's internals and the REST session resource.
  Fired events, revealed places and remember-me cookies are recorded in the
  presenter's fields. Who receives them is not modelled.
- Logging (`LOGGER.log`, `LOGGER.info`): no observable effect in the model.
- Browser reads: `Cookies.getCookie` is a lookup in the presenter's
  `browserCookies` map, and `GWT.getHostPageBaseURL` is a configuration
  value. The presenter's two reads of the cookie in one reveal see the same
  value.
- CookieDomain.GetDomain: requires a base URL without line terminators.
  Java's regex '.' stops at line ends, and a page URL contains none.
- CookieDomain.GetDomain: folds letter case for ASCII letters only. Java's
  equalsIgnoreCase also matches some non-ASCII letters, such as the long s
  (U+017F) against 's'.
- The meaning of the cookie's max-age under section 4.1.2.2 of RFC 6265
  (seconds): only the number the code computes is modelled.
- LoginMessages texts are localised resources: messages are symbolic tags
  with a style.
- CurrentUser.fromCurrentUserDto is not part of this model. The current
  user is recorded as the DTO it was filled from.
- Objectify's Ref, Deref and lazy loading (@Load, @Index, @Entity): the car
  link is an Option of the car. Car, CarDto, Car.create and Car.createDto
  are not part of this model.
- BaseEntity is not part of this model: its id is a field of the entity with
  a plain setter.
- Dates are values that are only copied. A java.util.Date is mutable and shared by
  reference between entity and DTO, and that aliasing is not modelled.
- ProductDatabase, Product, GetProductAction and GetProductResult are not
  part of this model. The database is a map, and a product is a value of a
  type parameter.
- The ExecutionContext parameters of execute and undo are unused by the code
  and are left out.
- GetProductListAction's getClass comparison: any object of another class,
  subclasses included, is one `OtherClass` value. Its identity is not
  modelled, because equals returns false for it whatever it is.
