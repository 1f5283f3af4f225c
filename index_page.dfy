/** The main page (src/pages/Index.tsx): the image shown, the flags for
    generating and editing, the active tab, and the gallery of generated
    images, newest first. */
module IndexPage {
  import opened Wrappers
  import PromptInput
  import Api

  /** A gallery record. */
  datatype GalleryEntry = GalleryEntry(url: string, prompt: string, timestamp: int)

  datatype Tab = Create | Gallery

  /** The gallery after saving an edit as `url`: only the url of the newest
      record changes; an empty gallery stays empty. */
  function WithEditedNewest(images: seq<GalleryEntry>, url: string): (r: seq<GalleryEntry>)
    ensures |r| == |images|
    ensures |r| > 0 ==>
      && r[0].url == url && r[0].prompt == images[0].prompt && r[0].timestamp == images[0].timestamp
    ensures forall i :: 0 < i < |r| ==> r[i] == images[i]
  {
    if |images| > 0 then images[0 := images[0].(url := url)] else images
  }

  /** Saving twice is the same as saving the second url once. */
  lemma LastSaveWins(images: seq<GalleryEntry>, first: string, second: string)
    ensures WithEditedNewest(WithEditedNewest(images, first), second) == WithEditedNewest(images, second)
  {
  }

  /** Saving right after a generation rewrites the url of the record that
      generation added and nothing else. */
  lemma SaveAfterGenerate(entry: GalleryEntry, images: seq<GalleryEntry>, url: string)
    ensures WithEditedNewest([entry] + images, url) == [entry.(url := url)] + images
  {
  }

  /** The parameters `generateImage` receives from a form submission: all
      four fields are present. */
  function ParamsOf(data: PromptInput.GenerateRequest): (p: Api.GenerateImageParams)
    ensures p.prompt == data.prompt
    ensures p.negativePrompt == Some(data.negativePrompt)
    ensures p.numInferenceSteps == Some(data.numInferenceSteps)
    ensures p.guidanceScale == Some(data.guidanceScale)
  {
    Api.GenerateImageParams(data.prompt, Some(data.negativePrompt),
                            Some(data.numInferenceSteps), Some(data.guidanceScale))
  }

  /** A request from the form reaches the endpoint with its step count and
      negative prompt as submitted: the form never produces a step count of
      0, so the default of 50 never applies. */
  lemma SubmittedRequestBody(data: PromptInput.GenerateRequest)
    requires PromptInput.MinSteps <= data.numInferenceSteps <= PromptInput.MaxSteps
    ensures var body := Api.BuildRequestBody(ParamsOf(data));
      && body.inputs == data.prompt
      && body.parameters.negativePrompt == data.negativePrompt
      && body.parameters.numInferenceSteps == data.numInferenceSteps
  {
    Api.NegativePromptDefault(ParamsOf(data));
  }

  /** The page's state. */
  class Page {
    var imageUrl: Option<string>
    var isGenerating: bool
    var currentPrompt: string
    var isEditing: bool
    var activeTab: Tab
    var generatedImages: seq<GalleryEntry>

    constructor ()
      ensures imageUrl == None && !isGenerating && currentPrompt == ""
      ensures !isEditing && activeTab == Create && generatedImages == []
    {
      imageUrl := None;
      isGenerating := false;
      currentPrompt := "";
      isEditing := false;
      activeTab := Create;
      generatedImages := [];
    }

    /** `handleGenerateImage(data)` at time `now`, where `reply` is what the
        HTTP exchange of `generateImage` produced. The prompt is recorded
        before the call, and the body posted carries the submitted prompt and
        negative prompt. On success the new image is shown and one record is
        put in front of the gallery; on failure image and gallery are left as
        they were. Generating ends on both paths. */
    method HandleGenerateImage(data: PromptInput.GenerateRequest, reply: Api.HttpReply, now: int)
      returns (posted: Api.RequestBody, outcome: Result<string, string>)
      modifies this`isGenerating, this`currentPrompt, this`imageUrl, this`generatedImages
      ensures Api.Exchange(posted, outcome) == Api.GenerateImage(ParamsOf(data), reply)
      ensures posted == Api.BuildRequestBody(ParamsOf(data))
      ensures posted.inputs == data.prompt && posted.parameters.negativePrompt == data.negativePrompt
      ensures outcome.Success? <==> reply.Ok?
      ensures currentPrompt == data.prompt && !isGenerating
      ensures outcome.Success? ==>
        && imageUrl == Some(outcome.value)
        && generatedImages == [GalleryEntry(outcome.value, data.prompt, now)] + old(generatedImages)
      ensures outcome.Failure? ==> imageUrl == old(imageUrl) && generatedImages == old(generatedImages)
    {
      isGenerating := true;
      currentPrompt := data.prompt;
      var exchange := Api.GenerateImage(ParamsOf(data), reply);
      posted, outcome := exchange.posted, exchange.outcome;
      if outcome.Success? {
        var generatedImageUrl := outcome.value;
        imageUrl := Some(generatedImageUrl);
        generatedImages := [GalleryEntry(generatedImageUrl, data.prompt, now)] + generatedImages;
      }
      isGenerating := false;
    }

    /** `handleSaveEdit(url)`: shows the edited image, leaves the editor and
        rewrites the url of the newest gallery record. */
    method HandleSaveEdit(editedImageUrl: string)
      modifies this`imageUrl, this`isEditing, this`generatedImages
      ensures imageUrl == Some(editedImageUrl) && !isEditing
      ensures generatedImages == WithEditedNewest(old(generatedImages), editedImageUrl)
    {
      imageUrl := Some(editedImageUrl);
      isEditing := false;
      if |generatedImages| > 0 {
        var updatedImages := generatedImages;
        updatedImages := updatedImages[0 := updatedImages[0].(url := editedImageUrl)];
        generatedImages := updatedImages;
      }
    }

    /** The gallery's `onSelectImage(url)`: shows that image on the create
        tab; the gallery is not touched. */
    method SelectImage(url: string)
      modifies this`imageUrl, this`activeTab
      ensures imageUrl == Some(url) && activeTab == Create
    {
      imageUrl := Some(url);
      activeTab := Create;
    }

    /** The display's `onEdit`: opens the editor. */
    method StartEdit()
      modifies this`isEditing
      ensures isEditing
    {
      isEditing := true;
    }

    /** The editor's `onBack`: closes the editor without saving. */
    method Back()
      modifies this`isEditing
      ensures !isEditing
    {
      isEditing := false;
    }

    /** The tab bar. */
    method SetActiveTab(tab: Tab)
      modifies this`activeTab
      ensures activeTab == tab
    {
      activeTab := tab;
    }
  }

  /** Generating twice puts both records in front, newest first; saving an
      edit then rewrites only the second generation's record. */
  method GenerateTwiceThenSave(first: string, second: string, edited: string, prompt: string)
  {
    var page := new Page();
    var data := PromptInput.GenerateRequest(prompt, "", 50, 7.5);
    var _, _ := page.HandleGenerateImage(data, Api.Ok(first), 1);
    var _, _ := page.HandleGenerateImage(data, Api.Ok(second), 2);
    assert page.generatedImages == [GalleryEntry(second, prompt, 2), GalleryEntry(first, prompt, 1)];
    page.StartEdit();
    page.HandleSaveEdit(edited);
    assert page.generatedImages == [GalleryEntry(edited, prompt, 2), GalleryEntry(first, prompt, 1)];
    assert page.imageUrl == Some(edited) && !page.isEditing;
  }
}
