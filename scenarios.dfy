/** End-to-end properties: what the browser hook posts, as the current server route
    reads and forwards it. */
module Scenarios {
  import opened Wrappers
  import opened Strings
  import opened Http
  import TryOnHook
  import OutfitRoute

  /** The route reads back from the hook's form the image or the description of each
      pair (whichever the hook sent) and the clothing image; when the hook's own check
      passed, the route's presence checks pass too; and the form the route forwards is
      the one built straight from the user's inputs with the descriptions trimmed. */
  lemma HookFormThroughRoute(req: TryOnHook.Request)
    ensures var u := Received(TryOnHook.HookForm(req));
      u.clothingImage == Some(req.garment)
      && u.avatarImage == (if Blank(req.avatarPrompt) then req.modelFile else None)
      && u.avatarPrompt == (if Blank(req.avatarPrompt) then [] else req.avatarPrompt)
      && u.backgroundImage == (if Blank(req.backgroundPrompt) then req.backgroundFile else None)
      && u.backgroundPrompt == (if Blank(req.backgroundPrompt) then [] else req.backgroundPrompt)
      && ((req.modelFile.Some? || !Blank(req.avatarPrompt)) ==>
            (u.avatarImage.Some? || !Blank(u.avatarPrompt)) && u.clothingImage.Some?)
      && OutfitRoute.RouteForm(u)
         == TryOnForm(Slot(req.modelFile, req.avatarPrompt, JsTrim(req.avatarPrompt)), Some(req.garment),
                      Slot(req.backgroundFile, req.backgroundPrompt, JsTrim(req.backgroundPrompt)), None)
  {
    var form := TryOnHook.HookForm(req);
    TryOnHook.HookFormSpec(req);
    SlotReceived(form, Slot(req.modelFile, req.avatarPrompt, req.avatarPrompt), AvatarImage, AvatarPrompt);
    SlotReceived(form, Slot(req.backgroundFile, req.backgroundPrompt, req.backgroundPrompt),
                 BackgroundImage, BackgroundPrompt);
    assert Blank([]) by { assert JsTrim([]) == []; }
  }
}
