# Brand & Sell: posts page and product form, modelled in Dafny

This project models two pages of the Brand & Sell front end, the parts that carry logic rather than layout.

**The posts page** (`PostsGenerator.tsx`):
- `generatePrompt` turns a product and the post options into a French prompt:
  - four lookup tables give the platform, objective, length and tone phrases;
  - the custom URL falls back to the product URL;
  - two flags print OUI/NON and each may add an instruction sentence.
- The page state (`PostsPage`) holds the selected product, the options form, the post just generated, the saved history and the set of expanded history entries.
- Its handlers are: select a product, change options, generate a post (which needs a selected product), save, delete, and toggle expanded.

**The product form** (`ProductGenerator.tsx`), a six-step wizard:
- `ProductForm` holds the field values (`Info`, a map from `Field` to text), the step counter, the generated prompt and JSON, the template-step flag and the selected template.
- Moving between steps is clamped at both ends.
- The page has two modes. The form's controls (inputs, step moves, submit) act only while the template step is hidden, and submit only from the last step. The template step's controls act only while it is shown. The methods require the mode they are shown in.
- The required-field check guards submission. `Missing` is `requiredFields.filter(f => !productInfo[f])`.
- Submitting stores the server prompt and the parsed reply.
- In the template step:
  - the JSON box only replaces the value when the text parses;
  - "apply" needs a selected template and truthy JSON.
- Two lookup tables are modelled:
  - `getSelectOptions`, the choices of the three select fields;
  - `getSectionIdForField`, which step section a field belongs to.

The two lookup functions take the property name as text, as the page does. `Key(f)` is the property name of field `f` (`"name"`, `"awarenessLevel"`, `"mainkeyword"`, ...). The lookup tests list fields, read through `Key`. Different fields have different names, and no field is called `"branding"` or `"seo"`; both facts are proved.

Files:
- `wrappers.dfy`: `Option`.
- `text.dfy`: joining template pieces and the substring relations `Contains`, `ContainsTwice`, `StartsWith` and `EndsWith`.
- `lists.dfy`: the list filter behind `posts.filter` and `requiredFields.filter`.
- `post_prompt.dfy`: the prompt.
- `post_history.dfy`: the posts page state.
- `product_wizard.dfy`: the product form.

## Model

| member | source | states |
|---|---|---|
| PostPrompt.PlatformContext | frontend/src/pages/PostsGenerator.tsx:115-121 | `platformContext[formData.platform]`; no contract of its own, specified by PlatformTableInjective and the prompt lemmas |
| PostPrompt.ObjectiveContext | frontend/src/pages/PostsGenerator.tsx:123-128 | `objectiveContext[formData.objective]`; no contract of its own, specified by ObjectiveTableInjective and the prompt lemmas |
| PostPrompt.LengthGuide | frontend/src/pages/PostsGenerator.tsx:130-134 | `lengthGuide[formData.length]`; no contract of its own, specified by LengthTableInjective and PromptListsInstructions |
| PostPrompt.ToneGuide | frontend/src/pages/PostsGenerator.tsx:136-141 | `toneGuide[formData.tone]`; no contract of its own, specified by ToneTableInjective and PromptListsInstructions |
| PostPrompt.PlatformKey | frontend/src/pages/PostsGenerator.tsx:167 | the platform value printed in the closing sentence; no contract of its own, specified by PlatformKeyInjective and PromptFrame |
| PostPrompt.PostUrl | frontend/src/pages/PostsGenerator.tsx:143 | the custom URL, or the product URL when the custom one is empty; no contract of its own, specified by PromptShowsUrl |
| PostPrompt.GeneratePrompt | frontend/src/pages/PostsGenerator.tsx:114-168 | `generatePrompt`; no contract of its own, specified by PromptSplits, PromptListsProduct, PromptShowsUrl, PromptRepeatsPlatform, PromptRepeatsObjective, PromptListsInstructions, PromptHashtagLine, PromptEmojiLine, PromptFrame, PromptWithFlags, HashtagFlagEffect and EmojiFlagEffect |
| PostPrompt.PlatformTableInjective | frontend/src/pages/PostsGenerator.tsx:115-121 | every platform has a non-empty phrase, and two different platforms never share one |
| PostPrompt.PlatformKeyInjective | frontend/src/pages/PostsGenerator.tsx:47 | the platform keys printed in the closing sentence are non-empty and pairwise different |
| PostPrompt.ObjectiveTableInjective | frontend/src/pages/PostsGenerator.tsx:123-128 | every objective has a non-empty phrase, and different objectives have different phrases |
| PostPrompt.LengthTableInjective | frontend/src/pages/PostsGenerator.tsx:130-134 | every length has a non-empty guide, and different lengths have different guides |
| PostPrompt.ToneTableInjective | frontend/src/pages/PostsGenerator.tsx:136-141 | every tone has a non-empty guide, and different tones have different guides |
| PostPrompt.PromptSplits | frontend/src/pages/PostsGenerator.tsx:145-167 | the prompt is the request line and product block, then the instruction block, joined with nothing in between |
| PostPrompt.PromptListsProduct | frontend/src/pages/PostsGenerator.tsx:148-153 | the prompt holds each product field right after its label: name, description, price followed by €, category, features, tags |
| PostPrompt.PromptShowsUrl | frontend/src/pages/PostsGenerator.tsx:143-156 | the URL line shows the custom URL when one was typed and the product URL when the custom one is empty; the instructions heading follows it directly |
| PostPrompt.PromptRepeatsPlatform | frontend/src/pages/PostsGenerator.tsx:145-157 | the platform phrase occurs twice without overlap: in the request line and in the instructions |
| PostPrompt.PromptRepeatsObjective | frontend/src/pages/PostsGenerator.tsx:145-162 | the objective phrase occurs twice without overlap: in the request line and as the main objective |
| PostPrompt.PromptListsInstructions | frontend/src/pages/PostsGenerator.tsx:157-162 | the instructions hold the platform phrase, the length guide, the tone guide and the objective phrase, each right after its label |
| PostPrompt.PromptHashtagLine | frontend/src/pages/PostsGenerator.tsx:160-164 | the hashtags line reads OUI when the flag is set and NON when it is not; a set flag puts the hashtag sentence in the prompt |
| PostPrompt.PromptEmojiLine | frontend/src/pages/PostsGenerator.tsx:161-165 | the emojis line reads OUI when the flag is set and NON when it is not; a set flag puts the emoji sentence in the prompt |
| PostPrompt.PromptFrame | frontend/src/pages/PostsGenerator.tsx:145-167 | the prompt starts with the request naming the platform phrase, and ends with the closing sentence naming the platform key |
| PostPrompt.ProductBlockIgnoresFlags | frontend/src/pages/PostsGenerator.tsx:145-154 | two forms with the same platform, objective and custom URL give the same product block, whatever their length, tone and flags |
| PostPrompt.InstructionsDifferAtHashtags | frontend/src/pages/PostsGenerator.tsx:156-167 | switching the hashtag flag changes only two of the twenty instruction pieces |
| PostPrompt.InstructionsDifferAtEmojis | frontend/src/pages/PostsGenerator.tsx:156-167 | switching the emoji flag changes only two of the twenty instruction pieces |
| PostPrompt.InstructionsHashtagEffect | frontend/src/pages/PostsGenerator.tsx:160-164 | within the instructions, the hashtag flag turns NON into OUI after the hashtags label and inserts the hashtag sentence, with everything else the same |
| PostPrompt.InstructionsEmojiEffect | frontend/src/pages/PostsGenerator.tsx:161-165 | within the instructions, the emoji flag turns NON into OUI after the emojis label and inserts the emoji sentence, with everything else the same |
| PostPrompt.PromptWithFlags | frontend/src/pages/PostsGenerator.tsx:145-167 | a form that differs only in length, tone or flags keeps the product block and changes only the instruction block |
| PostPrompt.HashtagFlagEffect | frontend/src/pages/PostsGenerator.tsx:160-164 | over the whole prompt, the hashtag flag makes exactly two changes: NON becomes OUI and the sentence is inserted; nothing else depends on it |
| PostPrompt.EmojiFlagEffect | frontend/src/pages/PostsGenerator.tsx:161-165 | over the whole prompt, the emoji flag makes exactly two changes: NON becomes OUI and the sentence is inserted; nothing else depends on it |
| PostHistory.WithoutPost | frontend/src/pages/PostsGenerator.tsx:263-269 | deleting an id keeps exactly the posts with another id and never lengthens the history |
| PostHistory.WithoutPostAppend | frontend/src/pages/PostsGenerator.tsx:264 | deleting from a history split in two deletes from each part, in order |
| PostHistory.WithoutUnknownPost | frontend/src/pages/PostsGenerator.tsx:264 | deleting an id that no post has leaves the history unchanged |
| PostHistory.WithoutPostTwice | frontend/src/pages/PostsGenerator.tsx:264 | deleting the same id twice is the same as deleting it once |
| PostHistory.WithoutPostCount | frontend/src/pages/PostsGenerator.tsx:264 | a post with another id keeps every copy it had; posts with the id keep none |
| PostHistory.DeleteJustSaved | frontend/src/pages/PostsGenerator.tsx:252-269 | saving a post and then deleting its id leaves the older history minus that id |
| PostHistory.Toggled | frontend/src/pages/PostsGenerator.tsx:271-279 | toggling flips whether the id is expanded and changes no other id |
| PostHistory.ToggledTwice | frontend/src/pages/PostsGenerator.tsx:271-279 | toggling an id twice gives back the original set |
| PostHistory.TogglesCommute | frontend/src/pages/PostsGenerator.tsx:271-279 | toggles of two ids can be applied in either order |
| PostHistory.PostsPage.constructor | frontend/src/pages/PostsGenerator.tsx:67-102 | the page starts with no product, the default options (awareness, instagram, medium, casual, both flags on, no custom URL), no posts and nothing expanded |
| PostHistory.PostsPage.SelectProduct | frontend/src/pages/PostsGenerator.tsx:104-112 | selecting a product records it and copies its id into the form; nothing else changes |
| PostHistory.PostsPage.ChangeOptions | frontend/src/pages/PostsGenerator.tsx:396-490 | an options control replaces the options and keeps the product id; nothing else changes |
| PostHistory.PostsPage.GeneratePost | frontend/src/pages/PostsGenerator.tsx:191-234 | without a selected product, or when the request fails, nothing changes; otherwise the slot holds the new post with the prompt built from the product and form, the reply, the product id and the clock readings, and the post records the selected product, the one its form names |
| PostHistory.PostsPage.SavePost | frontend/src/pages/PostsGenerator.tsx:252-261 | a generated post is put at the front of the history and the slot is emptied; with no post, nothing changes; every saved post records the product its form named |
| PostHistory.PostsPage.DeletePost | frontend/src/pages/PostsGenerator.tsx:263-269 | the history becomes the old history without the given id; nothing else changes; every remaining post records the product its form named |
| PostHistory.PostsPage.ToggleExpanded | frontend/src/pages/PostsGenerator.tsx:271-279 | the expanded set becomes the toggled set; nothing else changes |
| ProductWizard.InitialInfo | frontend/src/pages/ProductGenerator.tsx:20-45 | every field has a value: goal, awareness level and tone start on an option, and every other field starts empty |
| ProductWizard.WithField | frontend/src/pages/ProductGenerator.tsx:64-71 | an input or select change sets that one field and keeps the value of every other field |
| ProductWizard.SectionIdsDistinct | frontend/src/pages/ProductGenerator.tsx:55-62 | the six steps of `sections`, in order, have six different ids, so an id names one step |
| ProductWizard.StepFields | frontend/src/pages/ProductGenerator.tsx:192-640 | the inputs each step shows, in the order shown; `textColor` is on no step |
| ProductWizard.Next | frontend/src/pages/ProductGenerator.tsx:73-75 | `nextStep`; no contract of its own, specified by MovesStayInRange, MovesStopAtEnds and MovesUndo |
| ProductWizard.Prev | frontend/src/pages/ProductGenerator.tsx:77-79 | `prevStep`; no contract of its own, specified by MovesStayInRange, MovesStopAtEnds and MovesUndo |
| ProductWizard.MovesStayInRange | frontend/src/pages/ProductGenerator.tsx:73-79 | next and back keep the counter within the six steps |
| ProductWizard.MovesStopAtEnds | frontend/src/pages/ProductGenerator.tsx:73-79 | next does nothing exactly on the last step, and back does nothing exactly on the first |
| ProductWizard.MovesUndo | frontend/src/pages/ProductGenerator.tsx:73-79 | back after next, and next after back, return to the starting step away from the ends |
| ProductWizard.Missing | frontend/src/pages/ProductGenerator.tsx:82-86 | `missing`: never longer than the required list; specified by MissingMembers, NothingMissing, OptionalNeverMissing, OptionalEditKeepsMissing and InitiallyMissing |
| ProductWizard.RequiredFieldsListed | frontend/src/pages/ProductGenerator.tsx:82-85 | the required list holds exactly the twelve required fields |
| ProductWizard.MissingAmongIsFilter | frontend/src/pages/ProductGenerator.tsx:86 | the missing walk is the list filter with the falsy test `!productInfo[f]` |
| ProductWizard.MissingAmongMembers | frontend/src/pages/ProductGenerator.tsx:86 | a field is reported exactly when it is listed and its value is empty |
| ProductWizard.MissingMembers | frontend/src/pages/ProductGenerator.tsx:82-86 | a field is missing exactly when it is required and empty |
| ProductWizard.NothingMissing | frontend/src/pages/ProductGenerator.tsx:86-94 | the submit guard passes exactly when every required field is filled |
| ProductWizard.OptionalNeverMissing | frontend/src/pages/ProductGenerator.tsx:82-86 | the twelve optional fields (price, testimonials, guarantee, references, the SEO and colour fields except the main keyword) are never reported missing |
| ProductWizard.OptionalEditKeepsMissing | frontend/src/pages/ProductGenerator.tsx:64-86 | editing an optional field never changes the missing list |
| ProductWizard.MissingDependsOnFilled | frontend/src/pages/ProductGenerator.tsx:86 | two forms that agree on which listed fields are filled report the same missing fields |
| ProductWizard.MissingAmongAppend | frontend/src/pages/ProductGenerator.tsx:86 | checking a list split in two checks each part, in order |
| ProductWizard.InitiallyMissing | frontend/src/pages/ProductGenerator.tsx:20-94 | on the untouched form the missing list is name, audience, problems, solution, benefits, usp, features, cta, mainkeyword, in that order |
| ProductWizard.SelectOptions | frontend/src/pages/ProductGenerator.tsx:651-656 | `getSelectOptions`; no contract of its own, specified by SelectOptionCounts and DefaultsAreOptions |
| ProductWizard.SelectOptionCounts | frontend/src/pages/ProductGenerator.tsx:651-656 | goal offers 3 choices, awareness level 4, tone 5, and every other field none |
| ProductWizard.DefaultsAreOptions | frontend/src/pages/ProductGenerator.tsx:651-656 | each select field starts on one of its own choices |
| ProductWizard.KeyInjective | frontend/src/pages/ProductGenerator.tsx:20-45 | the 24 property names of the form's value object are pairwise different, so a name picks out at most one field |
| ProductWizard.NoFieldNamedBrandingOrSeo | frontend/src/pages/ProductGenerator.tsx:20-45 | no property name of the form is `"branding"` or `"seo"` |
| ProductWizard.SectionOfField | frontend/src/pages/ProductGenerator.tsx:642-649 | the lookup as written, given a field's name, answers with the section of the first test listing that field, and with nothing when no test lists it |
| ProductWizard.FixedSectionOfField | frontend/src/pages/ProductGenerator.tsx:642-649 | the corrected lookup, given a field's name, answers the same way, with the inputs of the SEO step sent to "seo" |
| ProductWizard.SectionIdForField | frontend/src/pages/ProductGenerator.tsx:642-649 | the lookup as written returns only ids of the six sections |
| ProductWizard.LastStepFieldsHaveNoSection | frontend/src/pages/ProductGenerator.tsx:648 | every field shown on the SEO step gets no section from the lookup as written, including the required main keyword; only the name `"seo"` itself reaches the SEO section |
| ProductWizard.FixedSectionIdForField | frontend/src/pages/ProductGenerator.tsx:642-649 | the corrected lookup returns only ids of the six sections |
| ProductWizard.LookupBeforeLastStep | frontend/src/pages/ProductGenerator.tsx:642-647 | on the first five steps, the lookup as written gives each shown field the id of its own step |
| ProductWizard.FixedLookupBeforeLastStep | frontend/src/pages/ProductGenerator.tsx:642-647 | on the first five steps, the corrected lookup gives each shown field the id of its own step |
| ProductWizard.FixedLookupOnLastStep | frontend/src/pages/ProductGenerator.tsx:478-614 | every field shown on the SEO step gets "seo" from the corrected lookup |
| ProductWizard.FixedSectionMatchesStep | frontend/src/pages/ProductGenerator.tsx:195-614 | every field shown on any step gets that step's section id from the corrected lookup |
| ProductWizard.LookupsAgreeBeforeLastStep | frontend/src/pages/ProductGenerator.tsx:642-647 | the two lookups agree on every field shown before the SEO step |
| ProductWizard.FixedChangesOnlyLastStep | frontend/src/pages/ProductGenerator.tsx:642-649 | on every name other than the SEO step's inputs, `"branding"` and `"seo"` included, the corrected lookup answers as the lookup as written |
| ProductWizard.ProductForm.constructor | frontend/src/pages/ProductGenerator.tsx:20-53 | the form starts on the first step with the initial values, no prompt, no JSON, the template step hidden and no template selected |
| ProductWizard.ProductForm.SetField | frontend/src/pages/ProductGenerator.tsx:64-71 | a change sets one field of the values, and no other part of the state changes |
| ProductWizard.ProductForm.NextStep | frontend/src/pages/ProductGenerator.tsx:73-75 | the counter moves one step on, except on the last step |
| ProductWizard.ProductForm.PrevStep | frontend/src/pages/ProductGenerator.tsx:77-79 | the counter moves one step back, except on the first step |
| ProductWizard.ProductForm.GoToStep | frontend/src/pages/ProductGenerator.tsx:185 | clicking a progress dot moves to that step |
| ProductWizard.ProductForm.Submit | frontend/src/pages/ProductGenerator.tsx:81-146 | the submission is blocked exactly when a required field is empty, and then changes nothing; the outcome carries the missing list the guard computes, where the page shows only a fixed notice. Otherwise the prompt and JSON are stored and the template step shown, exactly when the server returned a prompt and the reply parsed; values, step and template never change |
| ProductWizard.ProductForm.SelectTemplate | frontend/src/pages/ProductGenerator.tsx:149-151 | choosing a template records it |
| ProductWizard.ProductForm.EditJson | frontend/src/pages/ProductGenerator.tsx:684-688 | typed text replaces the JSON only when it parses; otherwise the JSON is kept |
| ProductWizard.ProductForm.CloseTemplateSelector | frontend/src/pages/ProductGenerator.tsx:694 | the back button hides the template step |
| ProductWizard.Truthy | frontend/src/pages/ProductGenerator.tsx:156 | JavaScript truthiness of the stored JSON, the `!generatedJSON` test; no contract of its own, specified through ApplyJsonToTemplate |
| ProductWizard.ProductForm.ApplyJsonToTemplate | frontend/src/pages/ProductGenerator.tsx:153-171 | applying is refused exactly when no template is selected or the JSON is falsy; otherwise it hands on the template id and the JSON |

## Left out

- The product list fetch (frontend/src/pages/PostsGenerator.tsx:77-91) and the `productList` state are left out; `SelectProduct` accepts any product.
- The network calls are parameters of the methods, not modelled:
  - the posts page: `callClaude`;
  - the product form: the `/api/product-info` and `/api/generate-claude` requests.
  - `GeneratePost` receives the reply text, or None when the request throws.
  - `Submit` receives the server prompt, and the reply parsed as JSON or None.
- `JSON.parse` is not modelled. Its outcome is a parameter (`Option<Json>`), for the submit and for the JSON text box.
- JSON numbers are held as integers.
- The `Date.now()` id and `new Date()` timestamp of a new post are parameters of `GeneratePost`.
- Browser and UI effects are left out, because none of them feeds back into the state modelled here:
  - local storage (token, `generatedPost`, `generatedJSON`, `templateData`);
  - clipboard copies, toasts, `console.log`, and navigation to the template page.
- `GeneratePost` and `Submit` are each one atomic step, although the page awaits network replies in the middle of them. The `isGenerating` flag makes this sound: while a request is pending it disables the generate button (frontend/src/pages/PostsGenerator.tsx:500) and the submit button (frontend/src/pages/ProductGenerator.tsx:623), so no second request starts. The flag itself is not modelled. Other state changes during the wait (a new product selection, say) are not modelled either.
- `ProductWizard.ProductForm.Submit`: a blocked outcome carries the list of missing fields. The page computes that list but only uses its length; the user sees the fixed notice "Veuillez remplir tous les champs obligatoires.".
- Rendering is left out: the per-step JSX apart from which inputs each step shows (`StepFields`), the labels maps of the history cards, and the progress bar width, which is a floating-point percentage.
- The product's `price` is a JavaScript number in the page. Here it is the text that number renders to inside the template; number-to-text conversion is not modelled.
- `PostPrompt.PromptHashtagLine`: when the flag is off, it does not state that the hashtag sentence is absent from the prompt. The product fields are arbitrary text and may contain that sentence. `HashtagFlagEffect` states instead that the flag changes the prompt in exactly two places.
- `PostPrompt.PromptEmojiLine`: when the flag is off, it does not state that the emoji sentence is absent, for the same reason. `EmojiFlagEffect` states the exact difference.
- The back end, the template generator page, routing and authentication are not part of this model.

## Findings

| source | as written | input that shows it | evidently intended | confidence | as-written member | corrected member |
|---|---|---|---|---|---|---|
| frontend/src/pages/ProductGenerator.tsx:648 | the last test of `getSectionIdForField` lists `"branding"` and `"seo"`, which are not field names | `"mainkeyword"` (a required field shown on the SEO step) gives undefined | the inputs of the SEO step (main keyword, secondary keywords, location, brand, four colours) also map to `"seo"`; the correction keeps the `"branding"` and `"seo"` names, and `textColor`, which no step shows, stays without a section | medium: not executed; the function is not called anywhere in the page | ProductWizard.LastStepFieldsHaveNoSection | ProductWizard.FixedSectionMatchesStep |
